/** Option and Result, as used for absent fields and for the exceptions the gateway raises. */
module Wrappers {
  datatype Option<+T> = None | Some(value: T)

  datatype Result<+T> = Ok(value: T) | Err(message: string)
}

/** Facts about flattening that every loop of the mappers relies on. */
module Sequences {
  /** Concatenation of `f` over `s`: what a loop that extends a list by `f(x)` for each `x` builds. */
  function FlatMap<A, B>(f: A -> seq<B>, s: seq<A>): (r: seq<B>) {
    if s == [] then [] else FlatMap(f, s[..|s| - 1]) + f(s[|s| - 1])
  }

  lemma {:induction false} FlatMapAppend<A, B>(f: A -> seq<B>, a: seq<A>, b: seq<A>)
    ensures FlatMap(f, a + b) == FlatMap(f, a) + FlatMap(f, b)
  {
    if b == [] {
      assert a + b == a;
    } else {
      var n := |b| - 1;
      assert (a + b)[..|a + b| - 1] == a + b[..n];
      FlatMapAppend(f, a, b[..n]);
    }
  }

  lemma FlatMapNone<A, B>(f: A -> seq<B>)
    ensures FlatMap(f, []) == []
  {
  }

  lemma {:induction false} FlatMapOne<A, B>(f: A -> seq<B>, x: A)
    ensures FlatMap(f, [x]) == f(x)
  {
    assert [x][..0] == [];
  }

  lemma FlatMapSnoc<A, B>(f: A -> seq<B>, s: seq<A>)
    requires s != []
    ensures FlatMap(f, s) == FlatMap(f, s[..|s| - 1]) + f(s[|s| - 1])
  {
  }

  /** One step of a loop over `s`. */
  lemma {:induction false} FlatMapStep<A, B>(f: A -> seq<B>, s: seq<A>, i: nat)
    requires i < |s|
    ensures FlatMap(f, s[..i + 1]) == FlatMap(f, s[..i]) + f(s[i])
  {
    assert s[..i + 1][..i] == s[..i];
  }

  lemma {:induction false} FlatMapCompose<A, B, C>(g: B -> seq<C>, f: A -> seq<B>, h: A -> seq<C>, s: seq<A>)
    requires forall x | x in s :: h(x) == FlatMap(g, f(x))
    ensures FlatMap(g, FlatMap(f, s)) == FlatMap(h, s)
  {
    if s != [] {
      var before, x := s[..|s| - 1], s[|s| - 1];
      assert x in s;
      FlatMapCompose(g, f, h, before);
      FlatMapAppend(g, FlatMap(f, before), f(x));
    }
  }

  lemma {:induction false} FlatMapMember<A, B>(f: A -> seq<B>, s: seq<A>, y: B)
    ensures y in FlatMap(f, s) <==> exists x :: x in s && y in f(x)
  {
    if s != [] {
      FlatMapMember(f, s[..|s| - 1], y);
      assert s == s[..|s| - 1] + [s[|s| - 1]];
    }
  }

  predicate Unique<T(==)>(s: seq<T>) {
    forall i, j | 0 <= i < j < |s| :: s[i] != s[j]
  }

  lemma {:induction false} UniqueSize<T>(s: seq<T>)
    requires Unique(s)
    ensures |set x | x in s| == |s|
  {
    if s != [] {
      var before, x := s[..|s| - 1], s[|s| - 1];
      assert s == before + [x];
      UniqueSize(before);
      assert (set y | y in s) == (set y | y in before) + {x};
    }
  }

  lemma SubsetNoLarger<T>(a: set<T>, b: set<T>)
    requires a <= b
    ensures |a| <= |b|
  {
    assert b == a + (b - a);
  }

  lemma UniqueNoLarger<T>(a: seq<T>, b: seq<T>)
    requires Unique(a) && Unique(b) && forall x | x in a :: x in b
    ensures |a| <= |b|
  {
    UniqueSize(a);
    UniqueSize(b);
    SubsetNoLarger(set x | x in a, set x | x in b);
  }

  lemma UniqueSmaller<T>(a: seq<T>, b: seq<T>, extra: T)
    requires Unique(a) && Unique(b) && forall x | x in a :: x in b
    requires extra in b && extra !in a
    ensures |a| < |b|
  {
    assert Unique(a + [extra]);
    UniqueNoLarger(a + [extra], b);
  }

  /** When `f` keeps at most what `g` keeps of each element, the two results agree iff they agree everywhere. */
  lemma {:induction false} FlatMapAgree<A, B>(f: A -> seq<B>, g: A -> seq<B>, s: seq<A>)
    requires forall x | x in s :: |f(x)| < |g(x)| || f(x) == g(x)
    ensures |FlatMap(f, s)| < |FlatMap(g, s)| || FlatMap(f, s) == FlatMap(g, s)
    ensures FlatMap(f, s) == FlatMap(g, s) <==> forall x | x in s :: f(x) == g(x)
  {
    if s != [] {
      var before, x := s[..|s| - 1], s[|s| - 1];
      FlatMapAgree(f, g, before);
      assert s == before + [x];
    }
  }
}

/** The string operations the mappers use. */
module Strings {
  import opened Sequences

  function Decimal(n: nat): string {
    if n < 10 then ["0123456789"[n]] else Decimal(n / 10) + ["0123456789"[n % 10]]
  }

  lemma {:induction false} DecimalInjective(m: nat, n: nat)
    requires Decimal(m) == Decimal(n)
    ensures m == n
  {
    assert Decimal(m)[|Decimal(m)| - 1] == "0123456789"[m % 10];
    assert Decimal(n)[|Decimal(n)| - 1] == "0123456789"[n % 10];
    DecimalLength(m);
    DecimalLength(n);
    if m >= 10 && n >= 10 {
      assert Decimal(m)[..|Decimal(m)| - 1] == Decimal(m / 10);
      assert Decimal(n)[..|Decimal(n)| - 1] == Decimal(n / 10);
      DecimalInjective(m / 10, n / 10);
    }
  }

  lemma DecimalLength(n: nat)
    ensures |Decimal(n)| == 1 <==> n < 10
    ensures |Decimal(n)| >= 1
  {
  }

  function Itself(s: string): string {
    s
  }

  /** "".join(parts) */
  function Join(parts: seq<string>): string {
    FlatMap(Itself, parts)
  }

  /** str.isspace */
  predicate IsSpace(c: char) {
    || c == ' ' || '\t' <= c <= '\r' || '\U{001C}' <= c <= '\U{001F}' || c == '\U{0085}' || c == '\U{00A0}'
    || c == '\U{1680}' || '\U{2000}' <= c <= '\U{200A}' || c == '\U{2028}' || c == '\U{2029}' || c == '\U{202F}'
    || c == '\U{205F}' || c == '\U{3000}'
  }

  predicate AllSpace(s: string) {
    forall c | c in s :: IsSpace(c)
  }

  /** s.strip() */
  function Strip(s: string): string {
    if s == "" then s
    else if IsSpace(s[0]) then Strip(s[1..])
    else if IsSpace(s[|s| - 1]) then Strip(s[..|s| - 1])
    else s
  }

  predicate Trimmed(s: string) {
    s != "" ==> !IsSpace(s[0]) && !IsSpace(s[|s| - 1])
  }

  lemma {:induction false} StripTrims(s: string)
    ensures Trimmed(Strip(s))
    ensures Strip(s) == "" <==> AllSpace(s)
    ensures Trimmed(s) ==> Strip(s) == s
  {
    if s != "" && IsSpace(s[0]) {
      StripTrims(s[1..]);
      assert s == [s[0]] + s[1..];
    } else if s != "" && IsSpace(s[|s| - 1]) {
      StripTrims(s[..|s| - 1]);
      assert s == s[..|s| - 1] + [s[|s| - 1]];
    } else if s != "" {
      assert s[0] in s;
    }
  }

  /** `t` is `s` without `i` characters of white space before it and without those from `j` on. */
  predicate Taken(s: string, i: nat, j: nat, t: string) {
    i <= j <= |s| && t == s[i..j] && AllSpace(s[..i]) && AllSpace(s[j..])
  }

  lemma TakenBefore(s: string, i: nat, j: nat, t: string)
    requires s != "" && IsSpace(s[0]) && Taken(s[1..], i, j, t)
    ensures Taken(s, i + 1, j + 1, t)
  {
    assert s[..i + 1] == [s[0]] + s[1..][..i];
    assert s[j + 1..] == s[1..][j..];
    hide IsSpace;
  }

  lemma TakenAfter(s: string, i: nat, j: nat, t: string)
    requires s != "" && IsSpace(s[|s| - 1]) && Taken(s[..|s| - 1], i, j, t)
    ensures Taken(s, i, j, t)
  {
    assert s[j..] == s[..|s| - 1][j..] + [s[|s| - 1]];
    assert s[..|s| - 1][i..j] == s[i..j];
    hide IsSpace;
  }

  /** Only white space is taken, and only from the ends. */
  lemma {:induction false} StripTakes(s: string)
    ensures exists i: nat, j: nat :: Taken(s, i, j, Strip(s))
  {
    hide Taken, IsSpace;
    if s == "" || (!IsSpace(s[0]) && !IsSpace(s[|s| - 1])) {
      assert Strip(s) == s;
      NothingTaken(s);
    } else if IsSpace(s[0]) {
      StripTakes(s[1..]);
      var i: nat, j: nat :| Taken(s[1..], i, j, Strip(s[1..]));
      TakenBefore(s, i, j, Strip(s[1..]));
      assert Strip(s) == Strip(s[1..]);
    } else {
      var before := s[..|s| - 1];
      StripTakes(before);
      var i: nat, j: nat :| Taken(before, i, j, Strip(before));
      TakenAfter(s, i, j, Strip(before));
      assert Strip(s) == Strip(before);
    }
  }

  lemma NothingTaken(s: string)
    ensures Taken(s, 0, |s|, s)
  {
  }

  lemma {:induction false} StripAtLeast(s: string, i: nat, j: nat)
    requires i <= j < |s| && !IsSpace(s[i]) && !IsSpace(s[j])
    ensures |Strip(s)| >= j - i + 1
  {
    if IsSpace(s[0]) {
      StripAtLeast(s[1..], i - 1, j - 1);
    } else if IsSpace(s[|s| - 1]) {
      StripAtLeast(s[..|s| - 1], i, j);
    }
  }

  lemma {:induction false} StripAtMost(s: string, j: int)
    requires -1 <= j && forall k | j < k < |s| :: IsSpace(s[k])
    ensures |Strip(s)| <= j + 1
  {
    if s != "" && IsSpace(s[0]) {
      StripAtMost(s[1..], if j < 0 then j else j - 1);
    } else if s != "" && IsSpace(s[|s| - 1]) {
      StripAtMost(s[..|s| - 1], j);
    }
  }

  lemma {:induction false} StripSkips(a: string, b: string)
    requires AllSpace(a)
    ensures Strip(a + b) == Strip(b)
  {
    if a == "" {
      assert a + b == b;
    } else {
      assert (a + b)[1..] == a[1..] + b && (a + b)[0] == a[0];
      StripSkips(a[1..], b);
    }
  }

  /** What comes before a text makes no difference to its stripped form exactly when it is white space. */
  lemma StripIgnores(a: string, b: string)
    ensures Strip(a + b) == Strip(b) <==> AllSpace(a)
  {
    if AllSpace(a) {
      StripSkips(a, b);
    } else {
      StripTrims(a + b);
      StripTrims(b);
      if !AllSpace(b) {
        var i :| 0 <= i < |a| && !IsSpace(a[i]);
        var j := LastInk(b);
        StripAtLeast(a + b, i, |a| + j);
        StripAtMost(b, j);
      }
    }
  }

  lemma {:induction false} LastInk(s: string) returns (j: nat)
    requires !AllSpace(s)
    ensures j < |s| && !IsSpace(s[j]) && forall k | j < k < |s| :: IsSpace(s[k])
  {
    var n := |s| - 1;
    if IsSpace(s[n]) {
      assert s == s[..n] + [s[n]];
      j := LastInk(s[..n]);
    } else {
      j := n;
    }
  }
}

/**
 Python values as the mappers see them: JSON trees, plus SDK objects whose fields are read with `getattr`.
 */
module Values {
  datatype Value =
    | Null
    | Bool(b: bool)
    | Num(n: real)
    | Str(s: string)
    | JsonText(of: Value)            // the string json.dumps(of)
    | Printed(of: Value)             // the string str(of)
    | List(items: seq<Value>)
    | Dict(fields: map<string, Value>)
    | Object(attrs: map<string, Value>)

  /** Python's truth value. */
  predicate Truthy(v: Value) {
    match v
    case Null => false
    case Bool(b) => b
    case Num(n) => n != 0.0
    case Str(s) => s != ""
    case JsonText(_) => true
    case Printed(_) => true
    case List(xs) => xs != []
    case Dict(m) => m != map[]
    case Object(_) => true
  }

  predicate IsStr(v: Value) {
    v.Str? || v.JsonText? || v.Printed?
  }

  /** getattr(v, name, default) */
  function AttrOr(v: Value, name: string, default: Value): Value {
    if v.Object? && name in v.attrs then v.attrs[name] else default
  }

  /** getattr(v, name, None) */
  function Attr(v: Value, name: string): Value {
    AttrOr(v, name, Null)
  }

  /** getattr(v, name, None) or [], for a field that holds a list or None */
  function AttrList(v: Value, name: string): seq<Value> {
    var a := Attr(v, name);
    if a.List? then a.items else []
  }

  /** d.get(name), None for anything that is not a dict */
  function Get(d: Value, name: string): Value {
    if d.Dict? && name in d.fields then d.fields[name] else Null
  }

  /** a or b */
  function Or(a: Value, b: Value): Value {
    if Truthy(a) then a else b
  }
}
