/** The PostgreSQL advisory lock that keeps reconciliation cycles apart.

The database frees the key when a session ends, whatever the client then still believes. */
module AdvisoryLocks {

  /** The database's side: at most one session owns the key. */
  class LockServer {
    var owner: PostgresAdvisoryLock?
    ghost var clients: set<PostgresAdvisoryLock>

    /** A client keeps a connection with a live session exactly while that session owns the key. */
    ghost predicate Valid()
      reads this, clients
    {
      && (owner != null ==> owner in clients)
      && (forall c :: c in clients ==> c.server == this && (c.connected && !c.broken <==> owner == c))
    }

    constructor ()
      ensures Valid() && owner == null && clients == {}
    {
      owner, clients := null, {};
    }
  }

  class PostgresAdvisoryLock {
    const server: LockServer
    var connected: bool
    /** The session of the kept connection has ended. */
    var broken: bool

    constructor (server: LockServer)
      requires server.Valid()
      modifies server
      ensures server.Valid() && this.server == server && !connected && !broken
      ensures server.clients == old(server.clients) + {this} && server.owner == old(server.owner)
    {
      this.server := server;
      connected, broken := false, false;
      new;
      server.clients := server.clients + {this};
    }

    /** `pg_try_advisory_lock` on a new connection, which is kept only on success; a client that keeps one
        already is told yes without asking the database. When there is no connection, or the statement
        fails on it, the call raises: nothing is kept, and the key is whose it was. */
    method TryAcquire(fails: bool) returns (acquired: bool, raised: bool)
      requires server.Valid() && this in server.clients
      modifies this`connected, this`broken, server`owner
      ensures server.Valid() && acquired == connected
      ensures raised <==> fails && !old(connected)
      ensures acquired <==> old(connected) || (!fails && old(server.owner) == null)
      ensures if old(connected) then broken == old(broken) && server.owner == old(server.owner)
              else !broken && server.owner == if acquired then this else old(server.owner)
    {
      if connected {
        return true, false;
      }
      broken := false;
      if fails {
        return false, true;
      }
      if server.owner == null {
        server.owner := this;
        connected := true;
      }
      return connected, false;
    }

    /** The session ends: a restart of the database, a dropped connection. The client does not notice. */
    method SessionEnds()
      requires server.Valid() && this in server.clients && connected
      modifies this`broken, server`owner
      ensures server.Valid() && connected && broken
      ensures server.owner == if old(server.owner) == this then null else old(server.owner)
    {
      broken := true;
      if server.owner == this {
        server.owner := null;
      }
    }

    /** The unlock raises on a dead session; the connection is dropped either way. */
    method Release() returns (raised: bool)
      requires server.Valid() && this in server.clients
      modifies this`connected, this`broken, server`owner
      ensures server.Valid() && !connected && !broken
      ensures raised <==> old(connected) && old(broken)
      ensures server.owner == if old(server.owner) == this then null else old(server.owner)
    {
      if !connected {
        broken := false;
        return false;
      }
      raised := broken;
      if server.owner == this {
        server.owner := null;
      }
      connected, broken := false, false;
    }
  }

  /** Two clients are between a successful `TryAcquire` and its `Release` at once only if the session of
      one of them has ended meanwhile. */
  lemma OneClientInside(server: LockServer, a: PostgresAdvisoryLock, b: PostgresAdvisoryLock)
    requires server.Valid() && a in server.clients && b in server.clients && a.connected && b.connected
    ensures a == b || a.broken || b.broken
  {
  }

  /** And then it does happen, unless the other's attempt fails. */
  method DeadSessionAdmitsAnother(a: PostgresAdvisoryLock, b: PostgresAdvisoryLock, fails: bool)
    returns (admitted: bool)
    requires a.server.Valid() && a in a.server.clients && b in a.server.clients
    requires a.connected && !a.broken && !b.connected
    modifies a, b, a.server`owner
    ensures a.server.Valid() && a.connected && a != b
    ensures admitted == b.connected == !fails
  {
    a.SessionEnds();
    var raised;
    admitted, raised := b.TryAcquire(fails);
  }

  /** While `mine` is inside with a live session, other clients may try as often as they like: all are
      turned away, those whose attempt fails and those whose attempt is answered. */
  method Rivals(mine: PostgresAdvisoryLock, tries: seq<PostgresAdvisoryLock>, failing: set<nat>)
    returns (admitted: bool)
    requires mine.server.Valid() && mine in mine.server.clients && mine.connected
    requires forall t :: t in tries ==> t in mine.server.clients && t != mine
    requires !mine.broken ==> forall t :: t in tries ==> !t.connected
    modifies mine.server`owner, tries
    ensures mine.server.Valid()
    ensures !mine.broken ==> !admitted && mine.server.owner == mine && forall t :: t in tries ==> !t.connected
  {
    admitted := false;
    var n := 0;
    while n < |tries|
      invariant 0 <= n <= |tries|
      invariant mine.server.Valid()
      invariant !mine.broken ==> !admitted && forall t :: t in tries ==> !t.connected
    {
      var acquired, _ := tries[n].TryAcquire(n in failing);
      admitted := admitted || acquired;
      n := n + 1;
    }
  }
}
