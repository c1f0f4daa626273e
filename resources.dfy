/**
 * The screenshot registry of src/mcp/resources.ts: two module-level maps (the
 * screenshots by name, and the screenshot names each session registered) and
 * the MCP resource listing and reading built on them.
 */
module Screenshots {
  import opened Wrappers

  const UriScheme := "screenshot://"
  const Separator := "://"
  const MimeType := "image/png"

  /** An entry of the resource listing. */
  datatype Resource = Resource(uri: string, mimeType: string, name: string)

  /** The one content item a successful read returns. */
  datatype ResourceContents = ResourceContents(uri: string, mimeType: string, blob: string)

  /**
   * The value of the registry. `screenshots` maps a name to its base64 blob;
   * `order` lists the keys of `screenshots` in insertion order, the iteration
   * order of a JavaScript Map; `sessionNames` maps a session id to the names it
   * registered.
   */
  datatype Registry = Registry(
    screenshots: map<string, string>,
    order: seq<string>,
    sessionNames: map<string, set<string>>)

  const Empty := Registry(map[], [], map[])

  predicate NoDuplicates(s: seq<string>) {
    forall i, j :: 0 <= i < j < |s| ==> s[i] != s[j]
  }

  /** `order` enumerates the keys of `screenshots`, each once. */
  ghost predicate Valid(reg: Registry) {
    && NoDuplicates(reg.order)
    && forall n :: n in reg.order <==> n in reg.screenshots
  }

  /** `s` with the elements of `gone` taken out, the rest in their order. */
  function Without(s: seq<string>, gone: set<string>): (r: seq<string>)
    ensures forall x :: x in r <==> x in s && x !in gone
    ensures NoDuplicates(s) ==> NoDuplicates(r)
  {
    if s == [] then []
    else
      var rest := Without(s[1..], gone);
      assert NoDuplicates(s) ==> s[0] !in s[1..];
      if s[0] in gone then rest else [s[0]] + rest
  }

  /** `Without` keeps the survivors in their relative order, as deleting from a JavaScript Map does. */
  lemma {:induction false} WithoutKeepsOrder(s: seq<string>, gone: set<string>, i: nat, j: nat)
    requires i < j < |Without(s, gone)|
    ensures exists a, b :: 0 <= a < b < |s| && s[a] == Without(s, gone)[i] && s[b] == Without(s, gone)[j]
  {
    var r := Without(s, gone);
    var rest := Without(s[1..], gone);
    if s[0] in gone {
      assert r == rest;
      WithoutKeepsOrder(s[1..], gone, i, j);
      var a, b :| 0 <= a < b < |s[1..]| && s[1..][a] == rest[i] && s[1..][b] == rest[j];
      assert s[a + 1] == r[i] && s[b + 1] == r[j];
    } else {
      assert r == [s[0]] + rest;
      if i == 0 {
        assert rest[j - 1] in rest;
        var b :| 0 <= b < |s[1..]| && s[1..][b] == rest[j - 1];
        assert s[0] == r[0] && s[b + 1] == r[j];
      } else {
        WithoutKeepsOrder(s[1..], gone, i - 1, j - 1);
        var a, b :| 0 <= a < b < |s[1..]| && s[1..][a] == rest[i - 1] && s[1..][b] == rest[j - 1];
        assert s[a + 1] == r[i] && s[b + 1] == r[j];
      }
    }
  }

  lemma {:induction false} WithoutNothing(s: seq<string>)
    ensures Without(s, {}) == s
  {
    if s != [] {
      WithoutNothing(s[1..]);
      assert s == [s[0]] + s[1..];
    }
  }

  lemma {:induction false} WithoutWithout(s: seq<string>, a: set<string>, b: set<string>)
    ensures Without(Without(s, a), b) == Without(s, a + b)
  {
    if s != [] {
      WithoutWithout(s[1..], a, b);
      var rest := Without(s[1..], a);
      if s[0] !in a {
        assert Without(s, a) == [s[0]] + rest;
        assert ([s[0]] + rest)[1..] == rest;
      }
    }
  }

  /** Deleting one more name from the blobs and their order extends the deleted set by that name. */
  lemma DeleteStep(shots: map<string, string>, order: seq<string>, done: set<string>, name: string, done': set<string>)
    requires done' == done + {name}
    ensures (shots - done) - {name} == shots - done'
    ensures Without(Without(order, done), {name}) == Without(order, done')
  {
    WithoutWithout(order, done, {name});
  }

  /** The names session `sessionId` registered (an absent set reads as empty). */
  function NamesOf(reg: Registry, sessionId: string): set<string> {
    if sessionId in reg.sessionNames then reg.sessionNames[sessionId] else {}
  }

  /** `registerScreenshot`: store the blob under `name` and add `name` to the session's set. */
  function Register(reg: Registry, sessionId: string, name: string, base64: string): Registry {
    Registry(
      reg.screenshots[name := base64],
      if name in reg.screenshots then reg.order else reg.order + [name],
      reg.sessionNames[sessionId := NamesOf(reg, sessionId) + {name}])
  }

  /** `clearScreenshotsForSession`: delete the session's names and then its set, if it has one. */
  function ClearSession(reg: Registry, sessionId: string): Registry {
    if sessionId in reg.sessionNames then
      var names := reg.sessionNames[sessionId];
      Registry(reg.screenshots - names, Without(reg.order, names), reg.sessionNames - {sessionId})
    else
      reg
  }

  /** Every name any of `ids` registered. */
  function OwnedNames(reg: Registry, ids: set<string>): set<string> {
    set id, n | id in ids && id in reg.sessionNames && n in reg.sessionNames[id] :: n
  }

  /** The registry once every session of `ids` has been cleared, in any order. */
  function ClearSessions(reg: Registry, ids: set<string>): Registry {
    var gone := OwnedNames(reg, ids);
    Registry(reg.screenshots - gone, Without(reg.order, gone), reg.sessionNames - ids)
  }

  lemma ClearSessionsNone(reg: Registry)
    ensures ClearSessions(reg, {}) == reg
  {
    assert OwnedNames(reg, {}) == {};
    WithoutNothing(reg.order);
  }

  /** Clearing one more session after a batch is clearing the larger batch. */
  lemma ClearSessionsStep(reg: Registry, ids: set<string>, id: string)
    requires id !in ids
    ensures ClearSession(ClearSessions(reg, ids), id) == ClearSessions(reg, ids + {id})
  {
    var gone := OwnedNames(reg, ids);
    var mid := ClearSessions(reg, ids);
    if id in reg.sessionNames {
      var names := reg.sessionNames[id];
      assert mid.sessionNames[id] == names;
      assert OwnedNames(reg, ids + {id}) == gone + names;
      WithoutWithout(reg.order, gone, names);
      assert (reg.screenshots - gone) - names == reg.screenshots - (gone + names);
      assert (reg.sessionNames - ids) - {id} == reg.sessionNames - (ids + {id});
    } else {
      assert OwnedNames(reg, ids + {id}) == gone;
      assert reg.sessionNames - ids == reg.sessionNames - (ids + {id});
    }
  }

  /**
   * After `registerScreenshot(s, n, b)` the name holds the blob and belongs to
   * `s`; every other name and every other session's set is as before, and the
   * registry stays well formed.
   */
  lemma RegisterEffect(reg: Registry, sessionId: string, name: string, base64: string)
    requires Valid(reg)
    ensures var r := Register(reg, sessionId, name, base64);
      && Valid(r)
      && r.screenshots.Keys == reg.screenshots.Keys + {name}
      && r.screenshots[name] == base64
      && name in NamesOf(r, sessionId)
      && NamesOf(r, sessionId) == NamesOf(reg, sessionId) + {name}
      && (forall m :: m in reg.screenshots && m != name ==> r.screenshots[m] == reg.screenshots[m])
      && (forall t :: t != sessionId ==> NamesOf(r, t) == NamesOf(reg, t))
      && r.order == if name in reg.screenshots then reg.order else reg.order + [name]
  {
    var r := Register(reg, sessionId, name, base64);
    if name !in reg.screenshots {
      assert name !in reg.order;
      assert forall i :: 0 <= i < |reg.order| ==> r.order[i] == reg.order[i];
    }
  }

  /**
   * `clearScreenshotsForSession(s)` deletes exactly the names in `s`'s set and
   * the key `s`; every other blob and every other session's set is unchanged,
   * and the registry stays well formed.
   */
  lemma ClearSessionEffect(reg: Registry, sessionId: string)
    requires Valid(reg)
    ensures var r := ClearSession(reg, sessionId);
      && Valid(r)
      && r.screenshots.Keys == reg.screenshots.Keys - NamesOf(reg, sessionId)
      && (forall m :: m in r.screenshots ==> r.screenshots[m] == reg.screenshots[m])
      && r.order == Without(reg.order, NamesOf(reg, sessionId))
      && sessionId !in r.sessionNames
      && (forall t :: t != sessionId ==> NamesOf(r, t) == NamesOf(reg, t))
  {
    if sessionId !in reg.sessionNames {
      WithoutNothing(reg.order);
    }
  }

  /** Clearing a session that registered nothing changes nothing, so clearing twice is clearing once. */
  lemma ClearSessionIdempotent(reg: Registry, sessionId: string)
    ensures sessionId !in reg.sessionNames ==> ClearSession(reg, sessionId) == reg
    ensures ClearSession(ClearSession(reg, sessionId), sessionId) == ClearSession(reg, sessionId)
  {
  }

  /** Clearing a batch of sessions keeps the registry well formed. */
  lemma ClearSessionsValid(reg: Registry, ids: set<string>)
    requires Valid(reg)
    ensures Valid(ClearSessions(reg, ids))
    ensures ClearSessions(reg, ids).screenshots.Keys == reg.screenshots.Keys - OwnedNames(reg, ids)
    ensures forall t :: t in ids ==> t !in ClearSessions(reg, ids).sessionNames
  {
  }

  /** The listing entry of one screenshot. */
  function Describe(name: string): Resource {
    Resource(UriScheme + name, MimeType, "Screenshot: " + name)
  }

  lemma DescribeInjective(a: string, b: string)
    ensures Describe(a) == Describe(b) ==> a == b
  {
    if Describe(a) == Describe(b) {
      assert a == (UriScheme + a)[|UriScheme|..];
      assert b == (UriScheme + b)[|UriScheme|..];
    }
  }

  lemma {:induction false} DistinctCount(s: seq<string>)
    requires NoDuplicates(s)
    ensures |set x | x in s| == |s|
  {
    if s != [] {
      DistinctCount(s[1..]);
      assert s[0] !in s[1..];
      assert (set x | x in s) == {s[0]} + (set x | x in s[1..]);
    }
  }

  /** `listResources`: one entry per stored screenshot, in insertion order. */
  function ListResources(reg: Registry): (r: seq<Resource>)
    requires Valid(reg)
    ensures |r| == |reg.screenshots| == |reg.order|
    ensures forall i :: 0 <= i < |r| ==> r[i] == Describe(reg.order[i])
    ensures forall n :: n in reg.screenshots <==> Describe(n) in r
    ensures NoDuplicates(reg.order) && forall i, j :: 0 <= i < j < |r| ==> r[i] != r[j]
    ensures forall i :: 0 <= i < |r| ==> r[i].mimeType == MimeType
  {
    var r := seq(|reg.order|, i requires 0 <= i < |reg.order| => Describe(reg.order[i]));
    DistinctCount(reg.order);
    assert (set x | x in reg.order) == reg.screenshots.Keys;
    forall n | Describe(n) in r
      ensures n in reg.screenshots
    {
      var i :| 0 <= i < |r| && r[i] == Describe(n);
      DescribeInjective(n, reg.order[i]);
    }
    forall i, j | 0 <= i < j < |r|
      ensures r[i] != r[j]
    {
      DescribeInjective(reg.order[i], reg.order[j]);
    }
    assert forall n :: n in reg.screenshots ==> Describe(n) in r by {
      forall n | n in reg.screenshots
        ensures Describe(n) in r
      {
        var i :| 0 <= i < |reg.order| && reg.order[i] == n;
        assert r[i] == Describe(n);
      }
    }
    r
  }

  predicate StartsWith(s: string, prefix: string) {
    |prefix| <= |s| && s[..|prefix|] == prefix
  }

  predicate OccursAt(s: string, sep: string, k: nat) {
    k + |sep| <= |s| && s[k..k + |sep|] == sep
  }

  /** The first position at or after `from` where `sep` occurs in `s`. */
  function IndexOf(s: string, sep: string, from: nat): (r: Option<nat>)
    requires sep != []
    ensures r.Some? ==> from <= r.value && OccursAt(s, sep, r.value)
    ensures r.Some? ==> forall k :: from <= k < r.value ==> !OccursAt(s, sep, k)
    ensures r.None? ==> forall k :: from <= k ==> !OccursAt(s, sep, k)
    decreases |s| - from
  {
    if from + |sep| > |s| then None
    else if s[from..from + |sep|] == sep then Some(from)
    else IndexOf(s, sep, from + 1)
  }

  /** An occurrence inside the slice `s[start..end]` is an occurrence in `s` before `end`. */
  lemma PieceOccurrence(s: string, sep: string, start: nat, end: nat, k: nat)
    requires sep != []
    requires start <= end <= |s|
    requires OccursAt(s[start..end], sep, k)
    ensures OccursAt(s, sep, start + k) && start + k < end
  {
    var p := s[start..end];
    forall i | 0 <= i < |sep|
      ensures s[start + k..start + k + |sep|][i] == sep[i]
    {
      assert p[k..k + |sep|][i] == sep[i];
      assert p[k + i] == s[start + k + i];
    }
    assert s[start + k..start + k + |sep|] == sep;
  }

  /** A slice of `s` that no occurrence of `sep` starts in contains no `sep`. */
  lemma PieceWithoutSeparator(s: string, sep: string, start: nat, end: nat)
    requires sep != []
    requires start <= end <= |s|
    requires forall j :: start <= j < end ==> !OccursAt(s, sep, j)
    ensures forall k :: !OccursAt(s[start..end], sep, k)
  {
    forall k: nat
      ensures !OccursAt(s[start..end], sep, k)
    {
      if OccursAt(s[start..end], sep, k) {
        PieceOccurrence(s, sep, start, end, k);
      }
    }
  }

  /**
   * `s.split(sep)[1]`: the text between the first and the second occurrence of
   * `sep` (or the end of `s`); None, JavaScript's `undefined`, when `sep` does
   * not occur. The piece never contains `sep` itself.
   */
  function SecondPiece(s: string, sep: string): (piece: Option<string>)
    requires sep != []
    ensures piece.Some? <==> IndexOf(s, sep, 0).Some?
    ensures piece.Some? ==>
      var start := IndexOf(s, sep, 0).value + |sep|;
      var end := start + |piece.value|;
      && end <= |s| && s[start..end] == piece.value
      && (end == |s| || OccursAt(s, sep, end))
    ensures piece.Some? ==> forall k :: !OccursAt(piece.value, sep, k)
  {
    match IndexOf(s, sep, 0)
    case None => None
    case Some(i) =>
      var start := i + |sep|;
      var next := IndexOf(s, sep, start);
      var end := if next.Some? then next.value else |s|;
      var p := s[start..end];
      PieceWithoutSeparator(s, sep, start, end);
      Some(p)
  }

  /** A name in which the URI separator does not occur. */
  predicate PlainName(name: string) {
    forall k: nat | k < |name| :: !OccursAt(name, Separator, k)
  }

  /** The name `readResource` extracts from `screenshot://` followed by a plain name is that name. */
  lemma NameOfScreenshotUri(name: string)
    requires PlainName(name)
    ensures SecondPiece(UriScheme + name, Separator) == Some(name)
  {
    var uri := UriScheme + name;
    assert uri[10..13] == Separator;
    assert OccursAt(uri, Separator, 10);
    var first := IndexOf(uri, Separator, 0);
    assert first.Some?;
    assert first.value <= 10;
    assert first.value == 10 by {
      var v := first.value;
      assert uri[v..v + 3] == Separator;
      assert uri[v] == uri[v..v + 3][0] == Separator[0] == ':';
      assert uri[..10] == "screenshot";
      assert ':' !in uri[..10];
      assert forall k :: 0 <= k < 10 ==> uri[k] in uri[..10];
    }
    forall k: nat | 13 <= k
      ensures !OccursAt(uri, Separator, k)
    {
      if OccursAt(uri, Separator, k) {
        assert uri[k..k + 3] == name[k - 13..k - 10];
        assert OccursAt(name, Separator, k - 13);
      }
    }
    assert IndexOf(uri, Separator, 13).None?;
    assert first == Some(10) && |Separator| == 3;
    assert uri[13..|uri|] == name;
  }

  function NotFound(uri: string): string {
    "Resource not found: " + uri
  }

  /**
   * `readResource`: a `screenshot://` URI whose name holds a non-empty blob
   * reads as that blob; anything else is "Resource not found".
   */
  function ReadResource(reg: Registry, uri: string): (r: Result<ResourceContents, string>)
    ensures r.Success? ==> StartsWith(uri, UriScheme)
    ensures r.Success? ==> r.value.uri == uri && r.value.mimeType == MimeType && r.value.blob != ""
    ensures r.Success? ==>
      var name := SecondPiece(uri, Separator);
      name.Some? && name.value in reg.screenshots && reg.screenshots[name.value] == r.value.blob
    ensures r.Failure? ==> r.error == NotFound(uri)
    ensures
      var name := SecondPiece(uri, Separator);
      StartsWith(uri, UriScheme) && name.Some? && name.value in reg.screenshots && reg.screenshots[name.value] != "" ==> r.Success?
  {
    if StartsWith(uri, UriScheme) then
      match SecondPiece(uri, Separator)
      case Some(name) =>
        if name in reg.screenshots && reg.screenshots[name] != "" then
          Success(ResourceContents(uri, MimeType, reg.screenshots[name]))
        else
          Failure(NotFound(uri))
      case None => Failure(NotFound(uri))
    else
      Failure(NotFound(uri))
  }

  /** `readResource` throws for a foreign URI, for an unknown name and for an empty blob. */
  lemma ReadResourceFailures(reg: Registry, name: string, uri: string)
    ensures !StartsWith(uri, UriScheme) ==> ReadResource(reg, uri) == Failure(NotFound(uri))
    ensures PlainName(name) && name !in reg.screenshots ==>
      ReadResource(reg, UriScheme + name) == Failure(NotFound(UriScheme + name))
    ensures PlainName(name) && name in reg.screenshots && reg.screenshots[name] == "" ==>
      ReadResource(reg, UriScheme + name) == Failure(NotFound(UriScheme + name))
  {
    if PlainName(name) {
      NameOfScreenshotUri(name);
      assert StartsWith(UriScheme + name, UriScheme);
    }
  }

  /** Round trip: a registered non-empty blob reads back under `screenshot://name`. */
  lemma ReadAfterRegister(reg: Registry, sessionId: string, name: string, base64: string)
    requires base64 != "" && PlainName(name)
    ensures ReadResource(Register(reg, sessionId, name, base64), UriScheme + name)
         == Success(ResourceContents(UriScheme + name, MimeType, base64))
  {
    NameOfScreenshotUri(name);
    assert StartsWith(UriScheme + name, UriScheme);
  }

  /** Every listed screenshot with a plain name and a non-empty blob can be read at its listed URI. */
  lemma ReadListed(reg: Registry, i: nat)
    requires Valid(reg)
    requires i < |reg.order|
    requires PlainName(reg.order[i]) && reg.screenshots[reg.order[i]] != ""
    ensures i < |ListResources(reg)|
    ensures ReadResource(reg, ListResources(reg)[i].uri)
         == Success(ResourceContents(UriScheme + reg.order[i], MimeType, reg.screenshots[reg.order[i]]))
  {
    var name := reg.order[i];
    var listing := ListResources(reg);
    assert listing == seq(|reg.order|, j requires 0 <= j < |reg.order| => Describe(reg.order[j]));
    NameOfScreenshotUri(name);
    assert StartsWith(UriScheme + name, UriScheme);
  }

  /** `"screenshot://x://y".split("://")[1]` is `"x"`. */
  lemma SplitCutsName()
    ensures SecondPiece(UriScheme + "x://y", Separator) == Some("x")
  {
    var uri := UriScheme + "x://y";
    assert uri[10..13] == Separator && uri[14..17] == Separator;
    assert OccursAt(uri, Separator, 10) && OccursAt(uri, Separator, 14);
    var first := IndexOf(uri, Separator, 0);
    assert first.Some? && first.value <= 10;
    assert first.value == 10 by {
      var v := first.value;
      assert uri[v] == uri[v..v + 3][0] == ':';
      assert uri[..10] == "screenshot";
      assert ':' !in uri[..10];
      assert forall k :: 0 <= k < 10 ==> uri[k] in uri[..10];
    }
    var second := IndexOf(uri, Separator, 13);
    assert second.Some? && second.value <= 14;
    assert second.value == 14 by {
      var v := second.value;
      assert uri[v] == uri[v..v + 3][0] == ':';
      assert uri[13] == 'x';
    }
    assert uri[13..14] == "x";
  }

  /**
   * A screenshot whose name contains the separator is listed under a URI that
   * `readResource` cannot read: the name is cut at the second `://`.
   */
  lemma ListedUriUnreadable()
    ensures var reg := Register(Empty, "s", "x://y", "aGk=");
      && Valid(reg)
      && Describe("x://y") in ListResources(reg)
      && ReadResource(reg, Describe("x://y").uri) == Failure(NotFound(Describe("x://y").uri))
  {
    RegisterEffect(Empty, "s", "x://y", "aGk=");
    SplitCutsName();
  }

  /**
   * Worse than a failure: when `x` is also stored, reading the listed URI of
   * `x://y` returns the blob of `x`.
   */
  lemma ListedUriReadsOtherBlob()
    ensures var reg := Register(Register(Empty, "s", "x", "eA=="), "s", "x://y", "aGk=");
      && Valid(reg)
      && Describe("x://y") in ListResources(reg)
      && ReadResource(reg, Describe("x://y").uri) == Success(ResourceContents(Describe("x://y").uri, MimeType, "eA=="))
  {
    RegisterEffect(Empty, "s", "x", "eA==");
    RegisterEffect(Register(Empty, "s", "x", "eA=="), "s", "x://y", "aGk=");
    SplitCutsName();
    assert StartsWith(UriScheme + "x://y", UriScheme);
  }

  /** `readResource` with the name taken as everything after the scheme. */
  function ReadResourceByName(reg: Registry, uri: string): (r: Result<ResourceContents, string>)
    ensures r.Success? <==>
      StartsWith(uri, UriScheme) && uri[|UriScheme|..] in reg.screenshots && reg.screenshots[uri[|UriScheme|..]] != ""
    ensures r.Success? ==>
      r.value == ResourceContents(uri, MimeType, reg.screenshots[uri[|UriScheme|..]])
    ensures r.Failure? ==> r.error == NotFound(uri)
  {
    if StartsWith(uri, UriScheme) && uri[|UriScheme|..] in reg.screenshots && reg.screenshots[uri[|UriScheme|..]] != "" then
      Success(ResourceContents(uri, MimeType, reg.screenshots[uri[|UriScheme|..]]))
    else
      Failure(NotFound(uri))
  }

  /** Every listed screenshot with a non-empty blob reads back at its listed URI, whatever its name. */
  lemma ReadListedByName(reg: Registry, i: nat)
    requires Valid(reg)
    requires i < |reg.order|
    requires reg.screenshots[reg.order[i]] != ""
    ensures i < |ListResources(reg)|
    ensures ReadResourceByName(reg, ListResources(reg)[i].uri)
         == Success(ResourceContents(UriScheme + reg.order[i], MimeType, reg.screenshots[reg.order[i]]))
  {
    var name := reg.order[i];
    var listing := ListResources(reg);
    assert listing == seq(|reg.order|, j requires 0 <= j < |reg.order| => Describe(reg.order[j]));
    assert (UriScheme + name)[|UriScheme|..] == name;
    assert StartsWith(UriScheme + name, UriScheme);
  }

  /** On names without the separator the corrected read agrees with `readResource`. */
  lemma ReadByNameAgrees(reg: Registry, name: string)
    requires PlainName(name)
    ensures ReadResourceByName(reg, UriScheme + name) == ReadResource(reg, UriScheme + name)
  {
    NameOfScreenshotUri(name);
    assert (UriScheme + name)[|UriScheme|..] == name;
    assert StartsWith(UriScheme + name, UriScheme);
  }

  /**
   * The registry's state in place: the module-level maps of the source,
   * changed by the three mutators.
   */
  class ScreenshotStore {
    var screenshots: map<string, string>
    var order: seq<string>
    var sessionNames: map<string, set<string>>

    function Model(): Registry
      reads this
    {
      Registry(screenshots, order, sessionNames)
    }

    constructor ()
      ensures Model() == Empty
    {
      screenshots, order, sessionNames := map[], [], map[];
    }

    method RegisterScreenshot(sessionId: string, name: string, base64: string)
      modifies this
      ensures Model() == Register(old(Model()), sessionId, name, base64)
    {
      if name !in screenshots {
        order := order + [name];
      }
      screenshots := screenshots[name := base64];
      var names: set<string>;
      if sessionId in sessionNames {
        names := sessionNames[sessionId];
      } else {
        names := {};
        sessionNames := sessionNames[sessionId := names];
      }
      sessionNames := sessionNames[sessionId := names + {name}];
    }

    method ClearScreenshotsForSession(sessionId: string)
      modifies this
      ensures Model() == ClearSession(old(Model()), sessionId)
    {
      if sessionId in sessionNames {
        var names := sessionNames[sessionId];
        ghost var shots0, order0 := screenshots, order;
        var todo := names;
        WithoutNothing(order);
        assert names - todo == {};
        while todo != {}
          invariant todo <= names
          invariant screenshots == shots0 - (names - todo)
          invariant order == Without(order0, names - todo)
          invariant sessionNames == old(sessionNames)
          decreases |todo|
        {
          var name :| name in todo;
          ghost var done := names - todo;
          screenshots := screenshots - {name};
          order := Without(order, {name});
          todo := todo - {name};
          DeleteStep(shots0, order0, done, name, names - todo);
        }
        assert names - todo == names;
        sessionNames := sessionNames - {sessionId};
      }
    }

    method ClearAllScreenshots()
      modifies this
      ensures Model() == Empty
    {
      screenshots := map[];
      order := [];
      sessionNames := map[];
    }
  }
}
