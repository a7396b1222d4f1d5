/** Canonical object keys: normalizeKey and the path cleaning it rests on. */
module Paths {
  import opened Text

  predicate HasDotDot(s: string) { |s| >= 2 && ((s[0] == '.' && s[1] == '.') || HasDotDot(s[1..])) }

  lemma {:induction false} DotDotExact(s: string)
    ensures HasDotDot(s) <==> exists i :: 0 <= i < |s| - 1 && s[i] == s[i + 1] == '.'
  {
    if |s| >= 2 {
      DotDotExact(s[1..]);
      if i :| 0 <= i < |s[1..]| - 1 && s[1..][i] == s[1..][i + 1] == '.' { assert s[i + 1] == s[i + 2] == '.'; }
      if i :| 0 <= i < |s| - 1 && s[i] == s[i + 1] == '.' {
        if i > 0 { assert s[1..][i - 1] == s[1..][i] == '.'; }
      }
    }
  }

  predicate Unsafe(s: string) { '\\' in s || HasDotDot(s) }

  predicate Undotted(parts: seq<string>) { forall i :: 0 <= i < |parts| ==> !HasDotDot(parts[i]) }

  /** path.Clean on the segments of a rooted path; stack is what has been kept so far. */
  function Clean(segments: seq<string>, stack: seq<string>): seq<string> {
    if segments == [] then stack
    else
      var s := segments[0];
      Clean(segments[1..],
            if s == "" || s == "." then stack
            else if s == ".." then (if stack == [] then [] else stack[..|stack| - 1])
            else stack + [s])
  }

  /** A parent reference takes back the segment before it, and nothing at the root; normalizeKey refuses it earlier. */
  lemma CleanParent(x: string, rest: seq<string>, stack: seq<string>)
    requires x != "" && x != "." && x != ".."
    ensures Clean([x, ".."] + rest, stack) == Clean(rest, stack)
    ensures Clean([".."] + rest, []) == Clean(rest, [])
  {
    var s := [x, ".."] + rest;
    assert s[1..] == [".."] + rest && s[1..][1..] == rest && ([".."] + rest)[1..] == rest;
    assert (stack + [x])[..|stack|] == stack;
  }

  function TrimPrefixSlash(s: string): string { if s != "" && s[0] == '/' then s[1..] else s }

  predicate PlainSegments(segments: seq<string>) {
    forall i :: 0 <= i < |segments| ==> segments[i] != "" && segments[i] != "." && segments[i] != ".."
  }

  function NormalizeKey(key: string): Option<string> {
    var k := TrimPrefixSlash(TrimSpace(key));
    if k == "" || Unsafe(k) then None
    else
      var kept := Clean(Split("/" + k, '/'), []);
      if kept == [] then None
      else
        var cleaned := Join(kept, '/');
        if PlainSegments(Split(cleaned, '/')) then Some(cleaned) else None
  }

  /** The segments path.Clean keeps when there is no parent reference. */
  function Kept(segments: seq<string>): (r: seq<string>)
    ensures forall i :: 0 <= i < |r| ==> r[i] in segments && r[i] != "" && r[i] != "."
  {
    if segments == [] then []
    else if segments[0] == "" || segments[0] == "." then Kept(segments[1..])
    else [segments[0]] + Kept(segments[1..])
  }

  lemma {:induction false} CleanIsKept(segments: seq<string>, stack: seq<string>)
    requires ".." !in segments
    ensures Clean(segments, stack) == stack + Kept(segments)
  {
    if segments != [] {
      var s := segments[0];
      CleanIsKept(segments[1..], if s == "" || s == "." then stack else stack + [s]);
    }
  }

  lemma {:induction false} KeptPlain(segments: seq<string>)
    requires PlainSegments(segments)
    ensures Kept(segments) == segments
  {
    if segments != [] { KeptPlain(segments[1..]); }
  }

  lemma KeptOne(x: string)
    ensures Kept([x]) == if x == "" || x == "." then [] else [x]
  {
  }

  lemma {:induction false} KeptConcat(a: seq<string>, b: seq<string>)
    ensures Kept(a + b) == Kept(a) + Kept(b)
  {
    if a == [] {
      assert a + b == b;
    } else {
      assert (a + b)[1..] == a[1..] + b;
      KeptConcat(a[1..], b);
    }
  }

  lemma {:induction false} DotsConcat(a: string, c: char, b: string)
    requires c != '.'
    ensures HasDotDot(a + [c] + b) <==> HasDotDot(a) || HasDotDot(b)
  {
    if a == "" {
      assert (a + [c] + b)[1..] == b;
    } else {
      assert (a + [c] + b)[1..] == a[1..] + [c] + b;
      DotsConcat(a[1..], c, b);
    }
  }

  lemma {:induction false} JoinDots(parts: seq<string>)
    requires |parts| >= 1
    ensures !HasDotDot(Join(parts, '/')) <==> Undotted(parts)
  {
    if |parts| > 1 {
      JoinDots(parts[1..]);
      DotsConcat(parts[0], '/', Join(parts[1..], '/'));
      assert parts == [parts[0]] + parts[1..];
    }
  }

  lemma NoParentSegment(k: string)
    requires !HasDotDot(k)
    ensures ".." !in Split(k, '/')
  {
    JoinDots(Split(k, '/'));
    assert HasDotDot("..");
  }

  /** The key without its outer white space, and the segments of it that survive cleaning. */
  function KeptSegments(key: string): seq<string> { Kept(Split(TrimSpace(key), '/')) }

  predicate Refused(key: string) { KeptSegments(key) == [] || Unsafe(TrimSpace(key)) }

  lemma KeptRooted(k: string)
    ensures Kept(Split("/" + k, '/')) == Kept(Split(k, '/'))
  {
    SplitConcat("", k, '/');
    assert "" + ['/'] + k == "/" + k;
    KeptConcat([""], Split(k, '/'));
  }

  lemma CleanRooted(k: string)
    requires !HasDotDot(k)
    ensures Clean(Split("/" + k, '/'), []) == Kept(Split(k, '/'))
    ensures PlainSegments(Kept(Split(k, '/')))
  {
    NoParentSegment(k);
    SplitConcat("", k, '/');
    assert "" + ['/'] + k == "/" + k;
    CleanIsKept(Split("/" + k, '/'), []);
    KeptRooted(k);
  }

  lemma KeptTrimPrefix(t: string)
    ensures Kept(Split(TrimPrefixSlash(t), '/')) == Kept(Split(t, '/'))
  {
    if TrimPrefixSlash(t) != t {
      assert t == "/" + TrimPrefixSlash(t);
      KeptRooted(TrimPrefixSlash(t));
    }
  }

  /** normalizeKey in one line: refuse empty, backslashed and double-dotted keys, else drop the empty and
      `.` segments. */
  lemma NormalizeForm(key: string)
    ensures NormalizeKey(key) == if Refused(key) then None else Some(Join(KeptSegments(key), '/'))
  {
    var t := TrimSpace(key);
    var k := TrimPrefixSlash(t);
    TrimKeepsDots(t);
    KeptTrimPrefix(t);
    if !HasDotDot(k) {
      CleanRooted(k);
      var kept := KeptSegments(key);
      if kept != [] { SplitJoin(kept, '/'); }
      if k == "" { assert kept == []; }
    }
  }

  lemma TrimKeepsDots(t: string)
    ensures Unsafe(TrimPrefixSlash(t)) <==> Unsafe(t)
  {
    var k := TrimPrefixSlash(t);
    if k != t {
      assert t == "" + ['/'] + k;
      DotsConcat("", '/', k);
    }
  }

  /** No accepted key holds an empty, `.` or `..` segment, a backslash, or nothing at all. */
  lemma NormalizedIsPlain(key: string)
    requires NormalizeKey(key).Some?
    ensures PlainSegments(Split(NormalizeKey(key).value, '/')) && NormalizeKey(key).value != ""
  {
    NormalizeForm(key);
    var r := NormalizeKey(key).value;
    SplitJoin(KeptSegments(key), '/');
    NoParentSegment(TrimSpace(key));
  }

  predicate EdgesSpaceFree(segments: seq<string>)
    requires forall i :: 0 <= i < |segments| ==> segments[i] != ""
  {
    segments != [] ==>
      var last := segments[|segments| - 1];
      !IsSpace(segments[0][0]) && !IsSpace(last[|last| - 1])
  }

  /** Normalising twice changes nothing exactly when the kept segments do not begin or end with white space. */
  lemma NormalizeIdempotent(key: string)
    requires NormalizeKey(key).Some?
    ensures NormalizeKey(NormalizeKey(key).value) == NormalizeKey(key) <==> EdgesSpaceFree(KeptSegments(key))
  {
    NormalizeForm(key);
    var r := NormalizeKey(key).value;
    EdgesTrim(KeptSegments(key));
    if EdgesSpaceFree(KeptSegments(key)) {
      NormalizedIsPlain(key);
      DotsSurvive(key);
      PlainIsFixed(r);
    } else {
      TrimmedShrinks(r);
    }
  }

  lemma EdgesTrim(parts: seq<string>)
    requires parts != [] && forall i :: 0 <= i < |parts| ==> parts[i] != ""
    ensures EdgesSpaceFree(parts) <==> TrimSpace(Join(parts, '/')) == Join(parts, '/')
  {
    JoinEnds(parts, '/');
  }

  /** A key that is already canonical is left alone. */
  lemma PlainIsFixed(r: string)
    requires r != "" && TrimSpace(r) == r && PlainSegments(Split(r, '/')) && !HasDotDot(r) && '\\' !in r
    ensures NormalizeKey(r) == Some(r)
  {
    NormalizeForm(r);
    KeptPlain(Split(r, '/'));
  }

  lemma TrimmedShrinks(r: string)
    requires TrimSpace(r) != r
    ensures NormalizeKey(r) != Some(r)
  {
    NormalizeForm(r);
    if KeptSegments(r) != [] {
      KeptShorter(Split(TrimSpace(r), '/'));
    }
  }

  lemma JoinEnds(parts: seq<string>, sep: char)
    requires |parts| >= 1 && forall i :: 0 <= i < |parts| ==> parts[i] != ""
    ensures var s := Join(parts, sep); var last := parts[|parts| - 1];
            s != "" && s[0] == parts[0][0] && s[|s| - 1] == last[|last| - 1]
  {
    if |parts| > 1 { JoinEnds(parts[1..], sep); }
  }

  lemma {:induction false} KeptShorter(segments: seq<string>)
    requires segments != [] && Kept(segments) != []
    ensures |Join(Kept(segments), '/')| <= |Join(segments, '/')|
  {
    if |segments| > 1 {
      if Kept(segments[1..]) != [] { KeptShorter(segments[1..]); }
    }
  }

  /** Cleaning adds neither double dots nor backslashes. */
  lemma DotsSurvive(key: string)
    requires NormalizeKey(key).Some?
    ensures !HasDotDot(NormalizeKey(key).value) && '\\' !in NormalizeKey(key).value
  {
    NormalizeForm(key);
    DotsOfKept(TrimSpace(key));
    BackslashOfKept(TrimSpace(key));
  }

  lemma DotsOfKept(t: string)
    requires !HasDotDot(t) && Kept(Split(t, '/')) != []
    ensures !HasDotDot(Join(Kept(Split(t, '/')), '/'))
  {
    JoinDots(Split(t, '/'));
    JoinDots(Kept(Split(t, '/')));
  }

  lemma BackslashOfKept(t: string)
    requires '\\' !in t && Kept(Split(t, '/')) != []
    ensures '\\' !in Join(Kept(Split(t, '/')), '/')
  {
    JoinLacks(Split(t, '/'), '/', '\\');
    JoinLacks(Kept(Split(t, '/')), '/', '\\');
  }

  /** A segment that normalizeKey neither drops nor refuses. */
  predicate CanonicalSegment(x: string) {
    x != "" && x != "." && !HasDotDot(x) && '/' !in x && '\\' !in x
  }

  predicate Canonical(p: seq<string>) { forall i :: 0 <= i < |p| ==> CanonicalSegment(p[i]) }

  /** Normalising a key that is one segment once its outer white space is gone. */
  lemma NormalizeOne(key: string, x: string)
    requires TrimSpace(key) == x || TrimSpace(key) == "/" + x
    requires x != "" && x != "." && '/' !in x && !Unsafe(x)
    ensures NormalizeKey(key) == Some(x)
  {
    hide NormalizeKey, TrimSpace, HasDotDot, Split;
    SplitPlain(x, '/');
    KeptOne(x);
    KeptRooted(x);
    NormalizeForm(key);
    TrimKeepsDots("/" + x);
  }

  lemma TrimBlank(s: string)
    requires s != "" && !IsSpace(s[0]) && !IsSpace(s[|s| - 1])
    ensures TrimSpace(" " + s) == s && TrimSpace("/ " + s) == "/" + (" " + s)
  {
    assert (" " + s)[1..] == s;
  }

  lemma BlankFirst(s: string)
    requires CanonicalSegment(s)
    ensures CanonicalSegment(" " + s)
  {
    DotsConcat("", ' ', s);
    assert "" + [' '] + s == " " + s;
  }

  /** Cleaning can expose white space that the next pass trims: for any canonical segment s,
      a slash, a blank and s normalise to a blank and s, and that to s alone. */
  lemma NormalizeNotIdempotent(s: string)
    requires CanonicalSegment(s) && !IsSpace(s[0]) && !IsSpace(s[|s| - 1])
    ensures NormalizeKey("/ " + s) == Some(" " + s) && NormalizeKey(" " + s) == Some(s)
  {
    hide NormalizeKey, TrimSpace, HasDotDot;
    BlankFirst(s);
    TrimBlank(s);
    NormalizeOne("/ " + s, " " + s);
    NormalizeOne(" " + s, s);
  }
}
