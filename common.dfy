/** Values and sequence helpers shared by every part of the model: JavaScript-style optional
    values and truthiness, the order-preserving `Array.prototype.filter`, lower-casing,
    JavaScript white space and `String.prototype.includes`. */
module Common {

  /** A value that may be missing (`undefined` or `null` in the source). */
  datatype Option<+T> = None | Some(value: T)

  /** JavaScript truthiness of an optional string: a missing value and `''` are falsy. */
  predicate Truthy(s: Option<string>)
  {
    s.Some? && s.value != ""
  }

  /** JavaScript truthiness of an optional number: a missing value (or NaN) and `0` are falsy. */
  predicate TruthyInt(n: Option<int>)
  {
    n.Some? && n.value != 0
  }

  /** `a || b` on optional numbers. */
  function OrInt(a: Option<int>, b: Option<int>): (r: Option<int>)
    ensures TruthyInt(a) ==> r == a
    ensures !TruthyInt(a) ==> r == b
  {
    if TruthyInt(a) then a else b
  }

  /** A plain JavaScript object with string values (a user or profile record). */
  type Record = map<string, string>

  /** `obj[key]`, `undefined` when the key is absent. */
  function Lookup(m: map<string, string>, key: string): (r: Option<string>)
    ensures r.Some? <==> key in m
    ensures r.Some? ==> r.value == m[key]
  {
    if key in m then Some(m[key]) else None
  }

  /** A selected file as the browser's `File` object exposes it. */
  datatype File = File(name: string, mimeType: string)

  /** A value stored in a form-state object (`useState({...})`). */
  datatype FormValue = Text(text: string) | Number(number: int) | Flag(flag: bool) | FileValue(file: File) | Null

  /** JavaScript truthiness of a form value. */
  predicate TruthyValue(v: FormValue)
  {
    match v
    case Text(t) => t != ""
    case Number(n) => n != 0
    case Flag(b) => b
    case FileValue(_) => true
    case Null => false
  }

  /** `m[key]` of a form-state object, `None` when absent. */
  function LookupValue(m: map<string, FormValue>, key: string): (r: Option<FormValue>)
    ensures r.Some? <==> key in m
    ensures r.Some? ==> r.value == m[key]
  {
    if key in m then Some(m[key]) else None
  }

  /** The key under which a form's `handleChange` keeps the chosen file object. */
  const FileKey: string := "file"

  /** A form's `handleChange`: a file input (`files` present) stores the first file's MIME type
      under the field's name and the file itself under `file`; an empty file list makes
      `files[0].type` throw (`None`); any other input stores its value. */
  function ChangedForm(data: map<string, FormValue>, name: string, value: string, files: Option<seq<File>>)
    : (r: Option<map<string, FormValue>>)
    ensures r.None? <==> files.Some? && files.value == []
    ensures files.None? ==> r == Some(data[name := Text(value)])
    ensures r.Some? && files.Some? ==>
              FileKey in r.value && r.value[FileKey] == FileValue(files.value[0]) &&
              (name != FileKey ==> name in r.value && r.value[name] == Text(files.value[0].mimeType))
    ensures r.Some? ==> forall k :: k != name && k != FileKey ==> LookupValue(r.value, k) == LookupValue(data, k)
  {
    if files.None? then Some(data[name := Text(value)])
    else if files.value == [] then None
    else Some(data[name := Text(files.value[0].mimeType)][FileKey := FileValue(files.value[0])])
  }

  /** `xs.filter(p)`: the elements of `xs` that satisfy `p`, in their original order. */
  function Filter<T(!new)>(xs: seq<T>, p: T -> bool): (r: seq<T>)
    ensures |r| <= |xs|
    ensures forall x :: x in r <==> x in xs && p(x)
  {
    if xs == [] then []
    else if p(xs[0]) then [xs[0]] + Filter(xs[1..], p)
    else Filter(xs[1..], p)
  }

  /** `a` can be obtained from `b` by deleting elements, keeping the order of the rest. */
  predicate IsSubsequence<T(==)>(a: seq<T>, b: seq<T>)
    decreases |b|
  {
    if a == [] then true
    else if b == [] then false
    else if a[0] == b[0] then IsSubsequence(a[1..], b[1..])
    else IsSubsequence(a, b[1..])
  }

  lemma {:induction false} FilterIsSubsequence<T(!new)>(xs: seq<T>, p: T -> bool)
    ensures IsSubsequence(Filter(xs, p), xs)
  {
    if xs != [] {
      FilterIsSubsequence(xs[1..], p);
      if !p(xs[0]) {
        SubsequenceOfTail(Filter(xs[1..], p), xs);
      }
    }
  }

  /** Dropping the first element of the longer sequence is allowed when it is not needed. */
  lemma {:induction false} SubsequenceOfTail<T>(a: seq<T>, b: seq<T>)
    requires b != []
    requires IsSubsequence(a, b[1..])
    ensures IsSubsequence(a, b)
    decreases |b|, 0
  {
    if a != [] && a[0] == b[0] {
      SubsequenceDropHead(a, b[1..]);
    }
  }

  /** A subsequence stays one when its first element is removed. */
  lemma {:induction false} SubsequenceDropHead<T>(a: seq<T>, c: seq<T>)
    requires a != []
    requires IsSubsequence(a, c)
    ensures IsSubsequence(a[1..], c)
    decreases |c|, 1
  {
    if a[0] != c[0] {
      SubsequenceDropHead(a, c[1..]);
    }
    if a[1..] != [] {
      SubsequenceOfTail(a[1..], c);
    }
  }

  /** Filtering twice is filtering once by the conjunction of the two predicates. */
  lemma {:induction false} FilterTwice<T(!new)>(xs: seq<T>, p: T -> bool, q: T -> bool, both: T -> bool)
    requires forall x :: both(x) == (p(x) && q(x))
    ensures Filter(Filter(xs, p), q) == Filter(xs, both)
  {
    if xs != [] {
      FilterTwice(xs[1..], p, q, both);
      if p(xs[0]) {
        assert Filter(xs, p) == [xs[0]] + Filter(xs[1..], p);
        assert Filter(xs, p)[1..] == Filter(xs[1..], p);
      }
    }
  }

  /** A filter whose predicate holds nowhere keeps nothing. */
  lemma {:induction false} FilterNone<T(!new)>(xs: seq<T>, p: T -> bool)
    requires forall x :: x in xs ==> !p(x)
    ensures Filter(xs, p) == []
  {
    if xs != [] {
      FilterNone(xs[1..], p);
    }
  }

  /** A filter whose predicate holds everywhere keeps the whole sequence. */
  lemma {:induction false} FilterAll<T(!new)>(xs: seq<T>, p: T -> bool)
    requires forall x :: x in xs ==> p(x)
    ensures Filter(xs, p) == xs
  {
    if xs != [] {
      FilterAll(xs[1..], p);
    }
  }

  /** Filtering by equivalent predicates gives the same result. */
  lemma {:induction false} FilterSamePredicate<T(!new)>(xs: seq<T>, p: T -> bool, q: T -> bool)
    requires forall x :: x in xs ==> (p(x) <==> q(x))
    ensures Filter(xs, p) == Filter(xs, q)
  {
    if xs != [] {
      FilterSamePredicate(xs[1..], p, q);
    }
  }

  /** A positive number times a positive whole number is at least the number itself. */
  lemma MulAtLeast(d: int, k: int)
    requires d > 0 && k >= 1
    ensures d * k >= d
  {
    if k > 1 {
      MulAtLeast(d, k - 1);
      assert d * k == d * (k - 1) + d;
    }
  }

  /** Euclidean division has a unique quotient and remainder. */
  lemma DivUnique(a: int, d: int, q: int, r: int)
    requires d > 0 && a == d * q + r && 0 <= r < d
    ensures a / d == q && a % d == r
  {
    var q', r' := a / d, a % d;
    assert a == d * q' + r';
    assert d * q - d * q' == r' - r;
    assert d * (q - q') == d * q - d * q';
    if q > q' {
      MulAtLeast(d, q - q');
    } else if q < q' {
      MulAtLeast(d, q' - q);
    }
  }

  /** Adding a multiple of the divisor does not change the remainder. */
  lemma ModShift(x: int, q: int, d: int)
    requires d > 0
    ensures (x + d * q) % d == x % d
  {
    assert x == d * (x / d) + x % d;
    assert x + d * q == d * (x / d + q) + x % d;
    DivUnique(x + d * q, d, x / d + q, x % d);
  }

  /** Lower-casing of one character, for the capital letters of the Basic Latin, Latin-1 and
      basic Cyrillic blocks (`A`-`Z`, `À`-`Þ` but `×`, `Ѐ`-`Я`); every other character is
      kept. */
  function LowerChar(c: char): (d: char)
  {
    if 'A' <= c <= 'Z' || ('\U{C0}' <= c <= '\U{DE}' && c != '\U{D7}') || '\U{410}' <= c <= '\U{42F}' then
      (c as int + 32) as char
    else if '\U{400}' <= c <= '\U{40F}' then (c as int + 80) as char
    else c
  }

  /** `s.toLowerCase()`, character by character with `LowerChar`. */
  function Lower(s: string): (r: string)
    ensures |r| == |s|
    ensures forall i :: 0 <= i < |s| ==> r[i] == LowerChar(s[i])
  {
    if s == [] then [] else [LowerChar(s[0])] + Lower(s[1..])
  }

  /** The characters JavaScript's `\s` matches, which are also the ones `Number` and `trim`
      strip: white space and line terminators. */
  predicate IsSpace(c: char)
  {
    c == ' ' || c == '\t' || c == '\n' || c == '\U{B}' || c == '\U{C}' || c == '\r' ||
    c == '\U{A0}' || c == '\U{1680}' || ('\U{2000}' <= c <= '\U{200A}') ||
    c == '\U{2028}' || c == '\U{2029}' || c == '\U{202F}' || c == '\U{205F}' ||
    c == '\U{3000}' || c == '\U{FEFF}'
  }

  predicate IsPrefix(p: string, s: string)
  {
    |p| <= |s| && s[..|p|] == p
  }

  /** `s.includes(p)`: `p` occurs in `s` as a contiguous block. */
  predicate Contains(s: string, p: string)
    decreases |s|
  {
    IsPrefix(p, s) || (s != [] && Contains(s[1..], p))
  }

  /** `p` occurs in `s` starting at position `i`. */
  predicate OccursAt(s: string, p: string, i: int)
  {
    0 <= i <= |s| - |p| && s[i..i + |p|] == p
  }

  /** `Contains` agrees with the positional definition of an occurrence. */
  lemma {:induction false} ContainsAt(s: string, p: string)
    ensures Contains(s, p) <==> exists i :: OccursAt(s, p, i)
  {
    if s != [] {
      ContainsAt(s[1..], p);
      if Contains(s[1..], p) {
        var i :| OccursAt(s[1..], p, i);
        assert s[i + 1..i + 1 + |p|] == s[1..][i..i + |p|];
        assert OccursAt(s, p, i + 1);
      }
      if IsPrefix(p, s) {
        assert OccursAt(s, p, 0);
      }
      if exists i :: OccursAt(s, p, i) {
        var i :| OccursAt(s, p, i);
        if i > 0 {
          assert s[1..][i - 1..i - 1 + |p|] == s[i..i + |p|];
          assert OccursAt(s[1..], p, i - 1);
        } else {
          assert IsPrefix(p, s);
        }
      }
    } else {
      if IsPrefix(p, s) {
        assert OccursAt(s, p, 0);
      }
      if exists i :: OccursAt(s, p, i) {
        var i :| OccursAt(s, p, i);
        assert IsPrefix(p, s);
      }
    }
  }

  /** The empty string occurs in every string, so an empty search term filters nothing. */
  lemma ContainsEmpty(s: string)
    ensures Contains(s, "")
  {
    assert IsPrefix("", s);
  }
}
