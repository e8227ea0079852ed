/** Splitting and joining text, and absolute paths as the component lists they denote. */
module PathText {
  predicate Free(s: string, c: char) {
    forall i :: 0 <= i < |s| ==> s[i] != c
  }

  predicate AllFree(parts: seq<string>, c: char) {
    forall i :: 0 <= i < |parts| ==> Free(parts[i], c)
  }

  /** Split around every separator; n separators give n + 1 parts. */
  function Split(s: string, c: char): (r: seq<string>)
    ensures r != [] && AllFree(r, c)
  {
    if s == [] then [""]
    else
      var r := Split(s[1..], c);
      if s[0] == c then [""] + r else [[s[0]] + r[0]] + r[1..]
  }

  function Join(parts: seq<string>, c: char): string {
    if parts == [] then "" else if |parts| == 1 then parts[0] else parts[0] + [c] + Join(parts[1..], c)
  }

  lemma {:induction false} SplitOfFree(s: string, c: char)
    requires Free(s, c)
    ensures Split(s, c) == [s]
  {
    if s != [] {
      SplitOfFree(s[1..], c);
      assert s == [s[0]] + s[1..];
    }
  }

  lemma SplitCons(x: char, t: string, c: char)
    ensures var r := Split(t, c); Split([x] + t, c) == if x == c then [""] + r else [[x] + r[0]] + r[1..]
  {
    assert ([x] + t)[1..] == t;
  }

  lemma {:induction false} SplitOfJoined(a: string, c: char, b: string)
    ensures Split(a + [c] + b, c) == Split(a, c) + Split(b, c)
  {
    if a == [] {
      assert a + [c] + b == [c] + b;
      SplitCons(c, b, c);
    } else {
      var x, t := a[0], a[1..];
      var rest := t + [c] + b;
      SplitOfJoined(t, c, b);
      assert a + [c] + b == [x] + rest && a == [x] + t;
      SplitCons(x, rest, c);
      SplitCons(x, t, c);
      HeadOfConcat(Split(t, c), Split(b, c), x);
    }
  }

  lemma HeadOfConcat(ra: seq<string>, rb: seq<string>, x: char)
    requires ra != []
    ensures [""] + (ra + rb) == [""] + ra + rb
    ensures [[x] + (ra + rb)[0]] + (ra + rb)[1..] == [[x] + ra[0]] + ra[1..] + rb
  {
    assert (ra + rb)[0] == ra[0] && (ra + rb)[1..] == ra[1..] + rb;
  }

  lemma {:induction false} SplitOfJoin(parts: seq<string>, c: char)
    requires parts != [] && AllFree(parts, c)
    ensures Split(Join(parts, c), c) == parts
  {
    SplitOfFree(parts[0], c);
    if |parts| > 1 {
      SplitOfJoin(parts[1..], c);
      SplitOfJoined(parts[0], c, Join(parts[1..], c));
      assert parts == [parts[0]] + parts[1..];
    }
  }

  lemma {:induction false} JoinOfSplit(s: string, c: char)
    ensures Join(Split(s, c), c) == s
  {
    if s != [] {
      JoinOfSplit(s[1..], c);
      var r := Split(s[1..], c);
      if s[0] == c {
        assert ([""] + r)[1..] == r;
        assert s == [c] + s[1..];
      } else {
        var q := [[s[0]] + r[0]] + r[1..];
        assert q[1..] == r[1..];
        assert s == [s[0]] + s[1..];
        if |r| > 1 {
          assert [s[0]] + r[0] + [c] + Join(r[1..], c) == [s[0]] + (r[0] + [c] + Join(r[1..], c));
        }
      }
    }
  }

  lemma {:induction false} JoinAppend(a: seq<string>, b: seq<string>, c: char)
    requires a != [] && b != []
    ensures Join(a + b, c) == Join(a, c) + [c] + Join(b, c)
  {
    if |a| == 1 {
      assert (a + b)[1..] == b;
    } else {
      JoinAppend(a[1..], b, c);
      assert (a + b)[1..] == a[1..] + b;
    }
  }

  // ---- absolute paths ----

  predicate IsAbs(path: string) {
    path != "" && path[0] == '/'
  }

  /** A component that names something below its parent. */
  predicate Normal(part: string) {
    part != "" && part != "." && part != ".." && Free(part, '/')
  }

  predicate AllNormal(parts: seq<string>) {
    forall i :: 0 <= i < |parts| ==> Normal(parts[i])
  }

  /** Lexical cleaning of a rooted path: empty and "." elements vanish, ".." removes its parent. */
  function Resolve(stack: seq<string>, parts: seq<string>): (r: seq<string>)
    requires AllNormal(stack) && AllFree(parts, '/')
    ensures AllNormal(r)
    decreases |parts|
  {
    if parts == [] then stack
    else if parts[0] == "" || parts[0] == "." then Resolve(stack, parts[1..])
    else if parts[0] == ".." then Resolve(if stack == [] then [] else stack[..|stack| - 1], parts[1..])
    else Resolve(stack + [parts[0]], parts[1..])
  }

  /** The directory an absolute path denotes, from the root down. */
  function Parts(path: string): (r: seq<string>)
    ensures AllNormal(r)
  {
    Resolve([], Split(path, '/'))
  }

  function Text(parts: seq<string>): string {
    "/" + Join(parts, '/')
  }

  /** filepath.Clean on a rooted path. */
  function Clean(path: string): string {
    Text(Parts(path))
  }

  /** path.Join onto a rooted first element. An empty element would only double a slash. */
  function PathJoin(elements: seq<string>): string {
    Clean(Join(elements, '/'))
  }

  lemma {:induction false} ResolveJoin(stack: seq<string>, a: seq<string>, b: seq<string>)
    requires AllNormal(stack) && AllFree(a, '/') && AllFree(b, '/')
    ensures AllFree(a + b, '/') && Resolve(stack, a + b) == Resolve(Resolve(stack, a), b)
    decreases |a|
  {
    if a == [] {
      assert a + b == b;
    } else {
      assert (a + b)[1..] == a[1..] + b;
      var next := if a[0] == "" || a[0] == "." then stack
                  else if a[0] == ".." then (if stack == [] then [] else stack[..|stack| - 1])
                  else stack + [a[0]];
      ResolveJoin(next, a[1..], b);
    }
  }

  lemma {:induction false} ResolveNormal(stack: seq<string>, parts: seq<string>)
    requires AllNormal(stack) && AllNormal(parts)
    ensures Resolve(stack, parts) == stack + parts
    decreases |parts|
  {
    if parts != [] {
      ResolveNormal(stack + [parts[0]], parts[1..]);
      assert stack + [parts[0]] + parts[1..] == stack + parts;
    } else {
      assert stack + parts == stack;
    }
  }

  /** Going down: appending text to a path resolves it from where the path leads. */
  lemma PartsOfLonger(path: string, more: string)
    ensures Parts(path + "/" + more) == Resolve(Parts(path), Split(more, '/'))
  {
    SplitOfJoined(path, '/', more);
    ResolveJoin([], Split(path, '/'), Split(more, '/'));
  }

  lemma PartsOfJoin(path: string, parts: seq<string>)
    requires AllNormal(parts) && parts != []
    ensures Parts(path + "/" + Join(parts, '/')) == Parts(path) + parts
  {
    PartsOfLonger(path, Join(parts, '/'));
    SplitOfJoin(parts, '/');
    ResolveNormal(Parts(path), parts);
  }

  /** Printing and reading a component list gives it back; so cleaned paths are equal exactly when they
      denote the same directory. */
  lemma PartsOfText(parts: seq<string>)
    requires AllNormal(parts)
    ensures Parts(Text(parts)) == parts
  {
    if parts == [] {
      assert Text(parts) == "/";
      assert Split("/", '/') == ["", ""];
    } else {
      assert Text(parts) == "" + "/" + Join(parts, '/');
      PartsOfJoin("", parts);
      assert Parts("") == [];
    }
  }

  lemma TextInjective(a: seq<string>, b: seq<string>)
    requires AllNormal(a) && AllNormal(b) && Text(a) == Text(b)
    ensures a == b
  {
    PartsOfText(a);
    PartsOfText(b);
  }

  lemma TextAppend(a: seq<string>, b: seq<string>)
    requires a != [] && b != []
    ensures Text(a + b) == Text(a) + Text(b)
  {
    JoinAppend(a, b, '/');
    assert Text(a + b) == "/" + (Join(a, '/') + "/" + Join(b, '/'));
    assert Text(a) + Text(b) == "/" + Join(a, '/') + ("/" + Join(b, '/'));
  }
}
