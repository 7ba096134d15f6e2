/** Page keys and URL paths (`hooks/useNavigation.ts`). */
module Navigation {
  import opened Wrappers
  import opened Js
  import opened Lists
  import Formatters

  // ------------------------------------------------------------- navigateTo

  /** `.replace(/\s+/g, '-')`: every run of whitespace becomes one '-'. */
  function Slug(s: string): (r: string)
    ensures forall i :: 0 <= i < |r| ==> !IsSpace(r[i])
    ensures |r| <= |s|
    decreases |s|
  {
    if s == [] then []
    else if IsSpace(s[0]) then
      var k := LeadingSpaces(s);
      "-" + Slug(s[k..])
    else [s[0]] + Slug(s[1..])
  }

  /** A key without whitespace keeps its characters. */
  lemma {:induction false} SlugNoSpace(s: string)
    requires forall i :: 0 <= i < |s| ==> !IsSpace(s[i])
    ensures Slug(s) == s
  {
    if s != [] {
      SlugNoSpace(s[1..]);
    }
  }

  /** A run of whitespace between two words becomes exactly one '-'. */
  lemma SlugJoin(a: string, spaces: string, b: string)
    requires forall i :: 0 <= i < |a| ==> !IsSpace(a[i])
    requires spaces != [] && AllSpace(spaces)
    requires b != [] && !IsSpace(b[0])
    ensures Slug(a + spaces + b) == a + "-" + Slug(b)
    decreases |a|
  {
    if a == [] {
      assert a + spaces + b == spaces + b;
      var s := spaces + b;
      assert LeadingSpaces(s) == |spaces| by {
        LeadingSpacesAppend(spaces, b);
      }
      assert s[|spaces|..] == b;
    } else {
      assert (a + spaces + b)[1..] == a[1..] + spaces + b;
      SlugJoin(a[1..], spaces, b);
    }
  }

  lemma {:induction false} LeadingSpacesAppend(spaces: string, b: string)
    requires AllSpace(spaces)
    requires b != [] && !IsSpace(b[0])
    ensures LeadingSpaces(spaces + b) == |spaces|
  {
    if spaces != [] {
      assert (spaces + b)[1..] == spaces[1..] + b;
      LeadingSpacesAppend(spaces[1..], b);
    } else {
      assert spaces + b == b;
    }
  }

  /** The route for a page key: '/' and the key lower-cased, whitespace runs turned into '-'. */
  function RoutePath(pageKey: string): (r: string)
    ensures |r| >= 1 && r[0] == '/'
    ensures forall i :: 0 <= i < |r| ==> !IsSpace(r[i])
    ensures |r| <= |pageKey| + 1
  {
    "/" + Slug(Lower(pageKey))
  }

  /** What `navigate` is called with: the path, and navigation state only when data was given. */
  datatype NavigateCall = NavigateCall(path: string, state: Option<JsValue>)

  /** `navigateTo(pageKey, data)` */
  function NavigateTo(pageKey: string, data: JsValue): (r: NavigateCall)
    ensures r.path == RoutePath(pageKey)
    ensures r.state.Some? <==> Truthy(data)
    ensures r.state.Some? ==> r.state.value == data
  {
    if Truthy(data) then NavigateCall(RoutePath(pageKey), Some(data))
    else NavigateCall(RoutePath(pageKey), None)
  }

  // --------------------------------------------------------- getCurrentPage

  /** `.replace(/-/g, ' ')` */
  function DashesToSpaces(s: string): (r: string)
    ensures |r| == |s|
    ensures forall i :: 0 <= i < |s| ==> r[i] == (if s[i] == '-' then ' ' else s[i])
  {
    if s == [] then [] else [if s[0] == '-' then ' ' else s[0]] + DashesToSpaces(s[1..])
  }

  /** `.split(' ')`: the pieces between separators, empty ones included; never an empty list. */
  function Split(s: string): (r: seq<string>)
    ensures |r| >= 1
    decreases |s|
  {
    if s == [] then [""]
    else if s[0] == ' ' then [""] + Split(s[1..])
    else
      var rest := Split(s[1..]);
      [[s[0]] + rest[0]] + rest[1..]
  }

  /** `.join(' ')` */
  function Join(words: seq<string>): string {
    if |words| == 0 then ""
    else if |words| == 1 then words[0]
    else words[0] + " " + Join(words[1..])
  }

  /** `words.map(word => word.charAt(0).toUpperCase() + word.slice(1))` */
  function CapitalizeAll(words: seq<string>): (r: seq<string>)
    ensures |r| == |words|
    ensures forall i :: 0 <= i < |words| ==> r[i] == Formatters.CapitalizeFirst(words[i])
  {
    if words == [] then [] else [Formatters.CapitalizeFirst(words[0])] + CapitalizeAll(words[1..])
  }

  /** `getCurrentPage()` for the current path. */
  function GetCurrentPage(path: string): string {
    var rest := if |path| >= 1 then path[1..] else "";
    Join(CapitalizeAll(Split(DashesToSpaces(rest))))
  }

  /** Prefixing the first word prefixes the joined text. */
  lemma JoinExtendFirst(c: char, words: seq<string>)
    requires |words| >= 1
    ensures Join([[c] + words[0]] + words[1..]) == [c] + Join(words)
  {
    if |words| > 1 {
      JoinExtendLong([c], words[0], words[1..]);
      assert [words[0]] + words[1..] == words;
    }
  }

  lemma JoinExtendLong(p: string, first: string, more: seq<string>)
    requires |more| >= 1
    ensures Join([p + first] + more) == p + Join([first] + more)
  {
    var w, v := [p + first] + more, [first] + more;
    assert w[1..] == more && v[1..] == more;
    ConcatAssoc(p, first, " ");
    ConcatAssoc(p, first + " ", Join(more));
  }

  /** An empty first word puts a separator in front of the rest. */
  lemma JoinEmptyFirst(words: seq<string>)
    requires |words| >= 1
    ensures Join([""] + words) == " " + Join(words)
  {
    assert ([""] + words)[1..] == words;
  }

  /** Joining the split pieces gives back the text. */
  lemma {:induction false} JoinSplit(s: string)
    ensures Join(Split(s)) == s
    decreases |s|
  {
    if s != [] {
      JoinSplit(s[1..]);
      var rest := Split(s[1..]);
      if s[0] == ' ' {
        JoinEmptyFirst(rest);
      } else {
        JoinExtendFirst(s[0], rest);
      }
      assert s == [s[0]] + s[1..];
    }
  }

  /** No piece of a split contains the separator. */
  lemma {:induction false} SplitNoSeparator(s: string)
    ensures forall w :: w in Split(s) ==> ' ' !in w
    decreases |s|
  {
    if s != [] {
      SplitNoSeparator(s[1..]);
    }
  }

  /** Capitalising every word keeps the total length. */
  lemma {:induction false} JoinCapitalizeLength(words: seq<string>)
    ensures |Join(CapitalizeAll(words))| == |Join(words)|
  {
    if |words| > 1 {
      JoinCapitalizeLength(words[1..]);
      assert CapitalizeAll(words)[1..] == CapitalizeAll(words[1..]);
    }
  }

  lemma UpperCharNotDash(c: char)
    requires c != '-'
    ensures UpperChar(c) != '-'
  {
  }

  /** A joined text has a '-' only where one of its words has one. */
  lemma {:induction false} JoinNoDash(words: seq<string>)
    requires forall w :: w in words ==> '-' !in w
    ensures '-' !in Join(words)
  {
    if |words| > 1 {
      JoinNoDash(words[1..]);
    }
  }

  /** Capitalising a word without '-' produces none. */
  lemma CapitalizeNoDash(w: string)
    requires '-' !in w
    ensures '-' !in Formatters.CapitalizeFirst(w)
  {
    if w != "" {
      UpperCharNotDash(w[0]);
      var r := Formatters.CapitalizeFirst(w);
      assert r == [UpperChar(w[0])] + w[1..];
    }
  }

  lemma {:induction false} SplitPiecesOfText(s: string)
    ensures forall w, c :: w in Split(s) && c in w ==> c in s
    decreases |s|
  {
    if s != [] {
      SplitPiecesOfText(s[1..]);
      var rest := Split(s[1..]);
      if s[0] != ' ' {
        forall w, c | w in Split(s) && c in w ensures c in s {
          if w == [s[0]] + rest[0] {
            if c != s[0] { assert c in rest[0]; }
          } else {
            assert w in rest[1..];
          }
        }
      }
    }
  }

  /** The page name has no '-' and is one character shorter than the path (the leading '/' is dropped). */
  lemma GetCurrentPageShape(path: string)
    requires |path| >= 1
    ensures '-' !in GetCurrentPage(path)
    ensures |GetCurrentPage(path)| == |path| - 1
  {
    var t := DashesToSpaces(path[1..]);
    assert '-' !in t;
    var words := Split(t);
    SplitPiecesOfText(t);
    var caps := CapitalizeAll(words);
    forall w | w in caps ensures '-' !in w {
      var i :| 0 <= i < |caps| && caps[i] == w;
      assert words[i] in words;
      CapitalizeNoDash(words[i]);
    }
    JoinNoDash(caps);
    JoinCapitalizeLength(words);
    JoinSplit(t);
  }

  /** The round trip loses case: the key 'A b' goes to '/a-b' and comes back as 'A B'. */
  lemma RoundTripLossy()
    ensures RoutePath("A b") == "/a-b"
    ensures GetCurrentPage("/a-b") == "A B"
  {
    RouteAB();
    PageAB();
  }

  lemma RouteAB()
    ensures RoutePath("A b") == "/a-b"
  {
    LowerAB();
    assert "a b" == "a" + " " + "b";
    SlugJoin("a", " ", "b");
    SlugNoSpace("b");
  }

  lemma LowerAB()
    ensures Lower("A b") == "a b"
  {
    assert LowerChar('A') == 'a' && LowerChar(' ') == ' ' && LowerChar('b') == 'b';
    assert "A b"[1..] == " b" && " b"[1..] == "b" && "b"[1..] == "";
  }

  lemma PageAB()
    ensures GetCurrentPage("/a-b") == "A B"
  {
    assert "/a-b"[1..] == "a-b";
    assert DashesToSpaces("a-b") == "a b";
    SplitAB();
    CapitalizeAB();
  }

  lemma SplitAB()
    ensures Split("a b") == ["a", "b"]
  {
    assert Split("") == [""];
    assert "b"[1..] == "" && [""][1..] == [] && ['b'] + "" == "b";
    assert Split("b") == ["b"];
    assert " b"[1..] == "b";
    assert Split(" b") == ["", "b"];
    assert "a b"[1..] == " b" && ["", "b"][1..] == ["b"] && ['a'] + "" == "a";
  }

  lemma CapitalizeAB()
    ensures Join(CapitalizeAll(["a", "b"])) == "A B"
  {
    assert Formatters.CapitalizeFirst("a") == "A" by { assert UpperChar('a') == 'A'; }
    assert Formatters.CapitalizeFirst("b") == "B" by { assert UpperChar('b') == 'B'; }
    assert CapitalizeAll(["a", "b"]) == ["A", "B"];
    assert ["A", "B"][1..] == ["B"];
  }
}
