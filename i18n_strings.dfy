/** The string table of website/src/i18n/strings.ts and its dotted-path
    lookup getString. */
module I18nStrings {
  import opened Basics

  /** A value of the table: a leaf string or an object of named entries. */
  datatype StrValue = Text(text: string) | Group(entries: seq<Entry>)
  datatype Entry = Entry(key: string, value: StrValue)

  /** `key in value` followed by `value[key]` on an object with own keys only. */
  function Find(entries: seq<Entry>, key: string): (r: Option<StrValue>)
    ensures r.Some? <==> exists i :: 0 <= i < |entries| && entries[i].key == key
    ensures r.Some? ==> exists i :: 0 <= i < |entries| && entries[i] == Entry(key, r.value)
  {
    if entries == [] then None
    else if entries[0].key == key then Some(entries[0].value)
    else Find(entries[1..], key)
  }

  /** The STRINGS table. */
  const STRINGS: StrValue := Group([
    Entry("navigation", Group([
      Entry("home", Text("Home")),
      Entry("toggleMenu", Text("Toggle navigation menu")),
      Entry("openMenu", Text("Open menu")),
      Entry("closeMenu", Text("Close menu")),
      Entry("breadcrumb", Text("Breadcrumb"))])),
    Entry("toc", Group([
      Entry("title", Text("On This Page")),
      Entry("label", Text("Table of contents")),
      Entry("close", Text("Close table of contents")),
      Entry("empty", Text("No headings on this page"))])),
    Entry("search", Group([
      Entry("title", Text("Search")),
      Entry("label", Text("Search")),
      Entry("placeholder", Text("Search documentation...")),
      Entry("close", Text("Close search")),
      Entry("noResults", Text("No results found")),
      Entry("searching", Text("Searching..."))])),
    Entry("scroll", Group([
      Entry("toTop", Text("Scroll to top")),
      Entry("progress", Text("Reading progress"))])),
    Entry("theme", Group([
      Entry("toggle", Text("Toggle theme")),
      Entry("light", Text("Switch to light mode")),
      Entry("dark", Text("Switch to dark mode")),
      Entry("system", Text("Use system preference"))])),
    Entry("loading", Group([
      Entry("message", Text("Loading...")),
      Entry("error", Text("Failed to load content"))])),
    Entry("a11y", Group([
      Entry("skipToContent", Text("Skip to content")),
      Entry("currentPage", Text("Current page")),
      Entry("externalLink", Text("Opens in new window")),
      Entry("expandSection", Text("Expand section")),
      Entry("collapseSection", Text("Collapse section"))])),
    Entry("actions", Group([
      Entry("close", Text("Close")),
      Entry("open", Text("Open")),
      Entry("back", Text("Back")),
      Entry("next", Text("Next")),
      Entry("previous", Text("Previous")),
      Entry("submit", Text("Submit")),
      Entry("cancel", Text("Cancel"))])),
    Entry("errors", Group([
      Entry("generic", Text("An error occurred")),
      Entry("notFound", Text("Page not found")),
      Entry("offline", Text("You appear to be offline")),
      Entry("noScript", Text("JavaScript is required for this feature"))]))
  ])

  /** `s.split(".")`: the pieces between dots, at least one (possibly empty). */
  function Split(s: string): (r: seq<string>)
    ensures |r| >= 1
    ensures forall i :: 0 <= i < |r| ==> '.' !in r[i]
    decreases |s|
  {
    if s == [] then [""]
    else if s[0] == '.' then [""] + Split(s[1..])
    else
      var rest := Split(s[1..]);
      [[s[0]] + rest[0]] + rest[1..]
  }

  /** `parts.join(".")`, the inverse of Split. */
  function Join(parts: seq<string>): string
    requires |parts| >= 1
  {
    if |parts| == 1 then parts[0] else parts[0] + "." + Join(parts[1..])
  }

  lemma {:induction false} JoinSplit(s: string)
    ensures Join(Split(s)) == s
    decreases |s|
  {
    if s == [] {
    } else if s[0] == '.' {
      JoinSplit(s[1..]);
      assert Split(s) == [""] + Split(s[1..]);
      assert Split(s)[1..] == Split(s[1..]);
    } else {
      JoinSplit(s[1..]);
      var rest := Split(s[1..]);
      assert Split(s) == [[s[0]] + rest[0]] + rest[1..];
      if |rest| == 1 {
      } else {
        assert Split(s)[1..] == rest[1..];
        assert Join(rest) == rest[0] + "." + Join(rest[1..]);
      }
    }
  }

  /** Splitting a dot-free piece followed by more text: the piece joins the
      first part of the rest. */
  lemma {:induction false} SplitPrefix(p: string, t: string)
    requires '.' !in p
    ensures Split(p + t) == [p + Split(t)[0]] + Split(t)[1..]
    decreases |p|
  {
    if p == [] {
      assert p + t == t;
      assert p + Split(t)[0] == Split(t)[0];
      assert [Split(t)[0]] + Split(t)[1..] == Split(t);
    } else {
      assert (p + t)[0] == p[0];
      assert (p + t)[1..] == p[1..] + t;
      assert '.' !in p[1..] by {
        forall k | 0 <= k < |p[1..]| ensures p[1..][k] != '.' {
          assert p[1..][k] == p[k + 1];
        }
      }
      SplitPrefix(p[1..], t);
      assert [p[0]] + (p[1..] + Split(t)[0]) == p + Split(t)[0];
    }
  }

  lemma {:induction false} SplitJoin(parts: seq<string>)
    requires |parts| >= 1
    requires forall i :: 0 <= i < |parts| ==> '.' !in parts[i]
    ensures Split(Join(parts)) == parts
    decreases |parts|
  {
    if |parts| == 1 {
      SplitPrefix(parts[0], "");
      assert parts[0] + "" == parts[0];
    } else {
      var rest := Join(parts[1..]);
      SplitJoin(parts[1..]);
      assert parts[0] + "." + rest == parts[0] + ("." + rest);
      SplitPrefix(parts[0], "." + rest);
      assert ("." + rest)[1..] == rest;
      assert Split("." + rest) == [""] + Split(rest);
      assert Split("." + rest)[0] == "" && Split("." + rest)[1..] == parts[1..];
      assert parts[0] + "" == parts[0];
      assert [parts[0]] + parts[1..] == parts;
    }
  }

  /** `s` is one of the leaf strings under `v`. */
  predicate HasLeaf(v: StrValue, s: string)
    decreases v
  {
    match v
    case Text(t) => t == s
    case Group(entries) => exists i :: 0 <= i < |entries| && HasLeaf(entries[i].value, s)
  }

  /** Walking the keys down from `v`: None as soon as a step finds no key (or
      a leaf where an object is needed), else the value reached. A string
      reached this way is a leaf of `v`. */
  function Resolve(v: StrValue, keys: seq<string>): (r: Option<StrValue>)
    ensures keys == [] ==> r == Some(v)
    ensures keys != [] && v.Text? ==> r.None?
    ensures r.Some? && r.value.Text? ==> HasLeaf(v, r.value.text)
    decreases |keys|
  {
    if keys == [] then Some(v)
    else match v
      case Text(_) => None
      case Group(entries) =>
        match Find(entries, keys[0])
        case None => None
        case Some(child) =>
          var below := Resolve(child, keys[1..]);
          assert below.Some? && below.value.Text? ==> HasLeaf(v, below.value.text) by {
            if below.Some? && below.value.Text? {
              var i :| 0 <= i < |entries| && entries[i] == Entry(keys[0], child);
              assert HasLeaf(entries[i].value, below.value.text);
            }
          }
          below
  }

  /** What getString(path) returns over `table`: the reached leaf string,
      else the path, so always a leaf string of the table or the input. */
  function Lookup(table: StrValue, path: string): (r: string)
    ensures r == path || HasLeaf(table, r)
    ensures Resolve(table, Split(path)).None? ==> r == path
  {
    match Resolve(table, Split(path))
    case Some(Text(s)) => s
    case _ => path
  }

  /** getString: the loop over the split keys with its early return. */
  method GetString(path: string) returns (r: string)
    ensures r == Lookup(STRINGS, path)
  {
    var keys := Split(path);
    var value := STRINGS;
    for i := 0 to |keys|
      invariant Resolve(STRINGS, keys) == Resolve(value, keys[i..])
    {
      assert keys[i..][0] == keys[i] && keys[i..][1..] == keys[i + 1..];
      var key := keys[i];
      // the walk goes on only through an object that has the key
      var found := if value.Group? then Find(value.entries, key) else None;
      if found.None? {
        return path;
      }
      value := found.value;
    }
    r := if value.Text? then value.text else path;
  }

  /** Resolving a concatenation of key lists resolves the first list, then
      the second from where the first ended. */
  lemma {:induction false} ResolveAppend(v: StrValue, a: seq<string>, b: seq<string>)
    ensures Resolve(v, a + b) == match Resolve(v, a) case None => None case Some(w) => Resolve(w, b)
    decreases |a|
  {
    if a == [] {
      assert a + b == b;
    } else {
      assert (a + b)[0] == a[0] && (a + b)[1..] == a[1..] + b;
      match v
      case Text(_) =>
      case Group(entries) =>
        match Find(entries, a[0])
        case None =>
        case Some(child) => ResolveAppend(child, a[1..], b);
    }
  }

  /** A key missing at any step makes the whole lookup fail. */
  lemma MissingKeyFails(v: StrValue, keys: seq<string>, i: nat, entries: seq<Entry>)
    requires i < |keys|
    requires Resolve(v, keys[..i]) == Some(Group(entries))
    requires Find(entries, keys[i]) == None
    ensures Resolve(v, keys) == None
  {
    assert keys == keys[..i] + keys[i..];
    ResolveAppend(v, keys[..i], keys[i..]);
  }

  /** Keys that continue past a leaf make the lookup fail: a string is not an
      object. */
  lemma PastLeafFails(v: StrValue, keys: seq<string>, i: nat, s: string)
    requires i < |keys|
    requires Resolve(v, keys[..i]) == Some(Text(s))
    ensures Resolve(v, keys) == None
  {
    assert keys == keys[..i] + keys[i..];
    ResolveAppend(v, keys[..i], keys[i..]);
  }

  /** A dotted path whose keys name a leaf returns that leaf's string. */
  lemma LeafPathFound(table: StrValue, keys: seq<string>, s: string)
    requires |keys| >= 1
    requires forall i :: 0 <= i < |keys| ==> '.' !in keys[i]
    requires Resolve(table, keys) == Some(Text(s))
    ensures Lookup(table, Join(keys)) == s
  {
    SplitJoin(keys);
  }

  /** A path that fails to resolve, or stops at an inner object, returns the
      path unchanged. */
  lemma UnresolvedReturnsPath(table: StrValue, path: string)
    requires Resolve(table, Split(path)).None? || Resolve(table, Split(path)).value.Group?
    ensures Lookup(table, path) == path
  {
  }

  /** The navigation group of STRINGS and the key list used in the examples. */
  lemma NavigationHome()
    ensures Resolve(STRINGS, ["navigation"]) == Some(STRINGS.entries[0].value)
    ensures STRINGS.entries[0].value.Group?
    ensures Resolve(STRINGS, ["navigation", "home"]) == Some(Text("Home"))
  {
  }

  /** getString("navigation.home") is "Home". */
  lemma ExampleLeaf()
    ensures Lookup(STRINGS, "navigation.home") == "Home"
  {
    NavigationHome();
    var keys := ["navigation", "home"];
    assert '.' !in keys[0] && '.' !in keys[1];
    assert Join(keys) == "navigation.home" by {
      assert Join(keys[1..]) == "home";
    }
    LeafPathFound(STRINGS, keys, "Home");
  }

  /** getString("navigation") stops at an object and returns the path. */
  lemma ExampleInnerObject()
    ensures Lookup(STRINGS, "navigation") == "navigation"
  {
    NavigationHome();
    assert '.' !in "navigation";
    SplitJoin(["navigation"]);
    assert Join(["navigation"]) == "navigation";
  }

  /** getString("navigation.home.x") continues past a leaf and returns the path. */
  lemma ExamplePastLeaf()
    ensures Lookup(STRINGS, "navigation.home.x") == "navigation.home.x"
  {
    var keys := ["navigation", "home", "x"];
    assert '.' !in keys[0] && '.' !in keys[1] && '.' !in keys[2];
    assert Join(keys) == "navigation.home.x" by {
      assert Join(keys[1..]) == "home.x" by {
        assert keys[1..][1..] == ["x"];
      }
    }
    SplitJoin(keys);
    assert Resolve(STRINGS, keys) == None by {
      NavigationHome();
      assert keys[..2] == ["navigation", "home"];
      PastLeafFails(STRINGS, keys, 2, "Home");
    }
  }
}
