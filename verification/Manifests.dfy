/** Rendering of the training manifest: the Job gets its name in place of the template's. */
module Manifests {
  import opened Wrappers
  import opened JobNames

  const TEMPLATE := "credit-model-training"
  const KEY := "name:"

  datatype RenderError = BadId | NoTemplateName

  /** `part` stands in `text` at `i`. */
  predicate StandsAt(text: string, i: int, part: string) {
    0 <= i <= |text| - |part| && text[i..i + |part|] == part
  }

  /** Only white space between the start of the line and `i`. */
  predicate BlankBefore(text: string, i: int)
    requires 0 <= i <= |text|
  {
    i == 0 || text[i - 1] == '\n' || (IsSpace(text[i - 1]) && BlankBefore(text, i - 1))
  }

  /** Only white space between `i` and the end of the line. */
  predicate BlankAfter(text: string, i: int)
    requires 0 <= i <= |text|
    decreases |text| - i
  {
    i == |text| || text[i] == '\n' || (IsSpace(text[i]) && BlankAfter(text, i + 1))
  }

  /** Before `i` there is a `name:` that starts its line, and white space, which may cross lines. */
  predicate KeyBefore(text: string, i: int)
    requires 0 <= i <= |text|
  {
    || (StandsAt(text, i - |KEY|, KEY) && BlankBefore(text, i - |KEY|))
    || (i > 0 && IsSpace(text[i - 1]) && KeyBefore(text, i - 1))
  }

  /** The pattern of `_render_manifest` matches with the value at `i`. */
  predicate NamedAt(text: string, i: int, value: string) {
    StandsAt(text, i, value) && KeyBefore(text, i) && BlankAfter(text, i + |value|)
  }

  /** The first match at or behind `from`. */
  function FirstName(text: string, value: string, from: nat): (found: Option<nat>)
    ensures found.Some? ==> from <= found.value && NamedAt(text, found.value, value)
    ensures forall i :: from <= i < (if found.Some? then found.value else |text| + 1) ==> !NamedAt(text, i, value)
    decreases |text| + 1 - from
  {
    if from > |text| then None
    else if NamedAt(text, from, value) then Some(from)
    else FirstName(text, value, from + 1)
  }

  function Spliced(manifest: string, i: nat, name: string): string
    requires i + |TEMPLATE| <= |manifest|
  {
    manifest[..i] + name + manifest[i + |TEMPLATE|..]
  }

  /** `_render_manifest`, with the name check that comes before it. */
  function Render(manifest: string, executionId: string): Result<string, RenderError> {
    match JobName(executionId)
    case Err(_) => Err(BadId)
    case Ok(name) =>
      match FirstName(manifest, TEMPLATE, 0)
      case None => Err(NoTemplateName)
      case Some(i) => Ok(Spliced(manifest, i, name))
  }

  lemma {:induction false} BlankBeforeIsLocal(a: string, b: string, i: int)
    requires 0 <= i <= |a| && i <= |b| && a[..i] == b[..i]
    ensures BlankBefore(a, i) == BlankBefore(b, i)
  {
    if i > 0 {
      assert a[i - 1] == a[..i][i - 1] == b[..i][i - 1] == b[i - 1];
      assert a[..i - 1] == a[..i][..i - 1] && b[..i - 1] == b[..i][..i - 1];
      BlankBeforeIsLocal(a, b, i - 1);
    }
  }

  lemma {:induction false} KeyBeforeIsLocal(a: string, b: string, i: int)
    requires 0 <= i <= |a| && i <= |b| && a[..i] == b[..i]
    ensures KeyBefore(a, i) == KeyBefore(b, i)
  {
    var k := i - |KEY|;
    if k >= 0 {
      assert a[k..i] == a[..i][k..] && b[k..i] == b[..i][k..];
      assert a[..k] == a[..i][..k] && b[..k] == b[..i][..k];
      BlankBeforeIsLocal(a, b, k);
    }
    if i > 0 {
      assert a[i - 1] == a[..i][i - 1] == b[..i][i - 1] == b[i - 1];
      assert a[..i - 1] == a[..i][..i - 1] && b[..i - 1] == b[..i][..i - 1];
      KeyBeforeIsLocal(a, b, i - 1);
    }
  }

  lemma {:induction false} BlankAfterIsLocal(a: string, i: int, b: string, j: int)
    requires 0 <= i <= |a| && 0 <= j <= |b| && a[i..] == b[j..]
    ensures BlankAfter(a, i) == BlankAfter(b, j)
    decreases |a| - i
  {
    assert |a| - i == |b| - j;
    if i < |a| {
      assert a[i] == a[i..][0] == b[j..][0] == b[j];
      assert a[i + 1..] == a[i..][1..] && b[j + 1..] == b[j..][1..];
      BlankAfterIsLocal(a, i + 1, b, j + 1);
    }
  }

  lemma SplicedFacts(manifest: string, i: nat, name: string)
    requires NamedAt(manifest, i, TEMPLATE)
    ensures var rendered := Spliced(manifest, i, name);
      && NamedAt(rendered, i, name) && rendered[..i] == manifest[..i]
      && rendered[i + |name|..] == manifest[i + |TEMPLATE|..]
  {
    var rendered := Spliced(manifest, i, name);
    assert rendered[..i] == manifest[..i];
    assert rendered[i + |name|..] == manifest[i + |TEMPLATE|..];
    assert StandsAt(rendered, i, name);
    KeyBeforeIsLocal(rendered, manifest, i);
    BlankAfterIsLocal(rendered, i + |name|, manifest, i + |TEMPLATE|);
  }

  /** `rendered` is the manifest with `name` in place of the template's name at `i`, its first place. */
  ghost predicate RenamesAt(manifest: string, name: string, rendered: string, i: nat) {
    && NamedAt(manifest, i, TEMPLATE) && (forall j: nat :: j < i ==> !NamedAt(manifest, j, TEMPLATE))
    && NamedAt(rendered, i, name) && rendered[..i] == manifest[..i]
    && rendered[i + |name|..] == manifest[i + |TEMPLATE|..]
  }

  ghost predicate RenamesTheFirst(manifest: string, name: string, rendered: string) {
    exists i: nat :: RenamesAt(manifest, name, rendered, i)
  }

  /** Rendering puts the Job's name where the template's name first stands under `name:`, and changes
      nothing else; it fails exactly when the id is bad or the template's name is not there. */
  lemma RenderRenamesTheFirst(manifest: string, executionId: string)
    ensures match Render(manifest, executionId)
      case Err(BadId) => JobName(executionId).Err?
      case Err(NoTemplateName) => JobName(executionId).Ok? && forall i :: !NamedAt(manifest, i, TEMPLATE)
      case Ok(rendered) => JobName(executionId).Ok? && RenamesTheFirst(manifest, JobName(executionId).value, rendered)
  {
    var found := FirstName(manifest, TEMPLATE, 0);
    if found.Some? {
      if JobName(executionId).Ok? {
        var name := JobName(executionId).value;
        SplicedFacts(manifest, found.value, name);
        assert RenamesAt(manifest, name, Spliced(manifest, found.value, name), found.value);
      }
    }
  }

  /** The name put in place is what the rendered manifest has more than the rest of the template. */
  lemma NameOfSplice(manifest: string, i: nat, name: string)
    requires i + |TEMPLATE| <= |manifest|
    ensures var rendered := Spliced(manifest, i, name);
      && |rendered| == |manifest| - |TEMPLATE| + |name|
      && rendered[i..i + |rendered| - (|manifest| - |TEMPLATE|)] == name
  {
  }

  /** Different approvals render different manifests. */
  lemma RenderIsInjective(manifest: string, x: string, y: string)
    requires MatchesId(x) && MatchesId(y) && Render(manifest, x).Ok? && Render(manifest, x) == Render(manifest, y)
    ensures x == y
  {
    NamesCohere(x);
    NamesCohere(y);
    var i := FirstName(manifest, TEMPLATE, 0).value;
    NameOfSplice(manifest, i, LookupName(x));
    NameOfSplice(manifest, i, LookupName(y));
    LookupsDiffer(x, y);
  }
}
