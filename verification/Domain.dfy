/** Domain names: normalisation, the canonical key of a bundle, and the allow-list. */
module Domain {

  const NUL: char := '\0'

  // ---------------------------------------------------------------- normalisation

  function LowerChar(ch: char): char {
    if 'A' <= ch <= 'Z' then (ch as int + 32) as char else ch
  }

  function Lower(s: string): string {
    seq(|s|, i requires 0 <= i < |s| => LowerChar(s[i]))
  }

  predicate EndsInDot(s: string) {
    s != "" && s[|s| - 1] == '.'
  }

  function TrimDot(s: string): string {
    if EndsInDot(s) then s[..|s| - 1] else s
  }

  /** normalizeName: one trailing dot is dropped, ASCII letters are lowered. */
  function Normalize(name: string): string {
    Lower(TrimDot(name))
  }

  predicate IsUpper(ch: char) {
    'A' <= ch <= 'Z'
  }

  /** The same letter in either case, or the same character. */
  predicate SameButCase(a: char, b: char) {
    || a == b
    || (IsUpper(a) && b as int == a as int + ('a' as int - 'A' as int))
    || (IsUpper(b) && a as int == b as int + ('a' as int - 'A' as int))
  }

  /** The names agree position by position up to ASCII case. */
  ghost predicate EqualFold(x: string, y: string) {
    |x| == |y| && forall i :: 0 <= i < |x| ==> SameButCase(x[i], y[i])
  }

  lemma LowerIffSame(a: char, b: char)
    ensures LowerChar(a) == LowerChar(b) <==> SameButCase(a, b)
  {
  }

  /** Lower-casing identifies exactly the names that differ in case only. */
  lemma LowerFolds(x: string, y: string)
    ensures Lower(x) == Lower(y) <==> EqualFold(x, y)
  {
    forall i | 0 <= i < |x| && i < |y| ensures Lower(x)[i] == Lower(y)[i] <==> SameButCase(x[i], y[i]) {
      LowerIffSame(x[i], y[i]);
    }
    if EqualFold(x, y) {
      assert forall i :: 0 <= i < |x| ==> Lower(x)[i] == Lower(y)[i];
    }
  }

  lemma LowerFixed(x: string)
    requires forall ch :: ch in x ==> !IsUpper(ch)
    ensures Lower(x) == x
  {
    forall i | 0 <= i < |x| ensures Lower(x)[i] == x[i] {
      assert x[i] in x;
    }
  }

  /** What normalisation is. Two names have the same normal form exactly if, with one final dot
      taken off where there is one, they agree up to case; a normal form has no upper-case
      letter; and a name without upper-case letters and final dot is its own normal form. */
  lemma NormalForm(x: string, y: string)
    ensures Normalize(x) == Normalize(y) <==> EqualFold(TrimDot(x), TrimDot(y))
    ensures forall ch :: ch in Normalize(x) ==> !IsUpper(ch)
    ensures !EndsInDot(x) && (forall ch :: ch in x ==> !IsUpper(ch)) ==> Normalize(x) == x
    ensures !EndsInDot(x) ==> Normalize(x + ".") == Normalize(x)
  {
    LowerFolds(TrimDot(x), TrimDot(y));
    if !EndsInDot(x) {
      assert (x + ".")[..|x|] == x;
      if forall ch :: ch in x ==> !IsUpper(ch) {
        LowerFixed(x);
      }
    }
  }

  /** Normalising twice equals normalising once exactly when the name does not end in
      two dots. */
  lemma NormalizeTwice(name: string)
    ensures Normalize(Normalize(name)) == Normalize(name)
            <==> !(|name| >= 2 && EndsInDot(name) && EndsInDot(TrimDot(name)))
  {
    var n := Normalize(name);
    assert |n| == |TrimDot(name)|;
    if EndsInDot(n) {
      assert |Normalize(n)| < |n|;
    } else {
      assert Normalize(n) == n;
    }
  }

  /** A name on which it makes a difference. */
  lemma NormalizeTwiceDiffers()
    ensures Normalize("a..") == "a." && Normalize(Normalize("a..")) == "a"
  {
    assert Lower("a.") == "a." && Lower("a") == "a";
    assert "a.."[..2] == "a." && "a."[..1] == "a";
  }

  // ---------------------------------------------------------------- splitting and joining

  /** strings.Split on one character: never empty, an empty string is one empty field. */
  function Split(s: string, sep: char): (fields: seq<string>)
    ensures |fields| >= 1
  {
    if s == "" then [""]
    else if s[0] == sep then [""] + Split(s[1..], sep)
    else
      var rest := Split(s[1..], sep);
      [[s[0]] + rest[0]] + rest[1..]
  }

  /** strings.Join with one character. */
  function Join(fields: seq<string>, sep: char): string {
    if fields == [] then ""
    else if |fields| == 1 then fields[0]
    else fields[0] + [sep] + Join(fields[1..], sep)
  }

  lemma {:induction false} JoinSplit(s: string, sep: char)
    ensures Join(Split(s, sep), sep) == s
  {
    if s != "" {
      JoinSplit(s[1..], sep);
      var rest := Split(s[1..], sep);
      if s[0] == sep {
        assert ([""] + rest)[1..] == rest;
      } else {
        assert ([[s[0]] + rest[0]] + rest[1..])[1..] == rest[1..];
      }
    }
  }

  /** Splitting at a separator splits both sides. */
  lemma {:induction false} SplitConcat(x: string, y: string, sep: char)
    ensures Split(x + [sep] + y, sep) == Split(x, sep) + Split(y, sep)
  {
    var s := x + [sep] + y;
    if x == "" {
      assert s[1..] == y;
    } else {
      assert s[1..] == x[1..] + [sep] + y;
      SplitConcat(x[1..], y, sep);
    }
  }

  lemma {:induction false} SplitPlain(x: string, sep: char)
    requires sep !in x
    ensures Split(x, sep) == [x]
  {
    if x != "" {
      SplitPlain(x[1..], sep);
      assert x == [x[0]] + x[1..];
    }
  }

  lemma {:induction false} SplitJoin(fields: seq<string>, sep: char)
    requires fields != [] && forall f :: f in fields ==> sep !in f
    ensures Split(Join(fields, sep), sep) == fields
  {
    SplitPlain(fields[0], sep);
    if |fields| > 1 {
      SplitConcat(fields[0], Join(fields[1..], sep), sep);
      SplitJoin(fields[1..], sep);
    }
  }

  lemma {:induction false} JoinConcat(a: seq<string>, b: seq<string>, sep: char)
    requires a != [] && b != []
    ensures Join(a + b, sep) == Join(a, sep) + [sep] + Join(b, sep)
  {
    assert (a + b)[1..] == a[1..] + b;
    if |a| > 1 {
      JoinConcat(a[1..], b, sep);
    } else {
      assert a[1..] + b == b;
    }
  }

  // ---------------------------------------------------------------- the allow-list

  function Labels(name: string): seq<string> {
    Split(name, '.')
  }

  predicate IsSuffix<T(==)>(tail: seq<T>, s: seq<T>) {
    |tail| <= |s| && s[|s| - |tail|..] == tail
  }

  /** The test IsSubdomain applies to one allowed name. */
  predicate Matches(d: string, parent: string) {
    d == parent || IsSuffix("." + parent, d)
  }

  lemma DottedSuffixGivesLabels(x: string, parent: string)
    ensures IsSuffix(Labels(parent), Labels(x + ['.'] + parent))
  {
    SplitConcat(x, parent, '.');
    var l := Labels(x) + Labels(parent);
    assert l[|Labels(x)|..] == Labels(parent);
  }

  /** Both names are the joins of their labels, so equal labels mean equal names and further
      labels in front mean a dot before `parent`. */
  lemma LabelsGiveSuffix(d: string, parent: string, pre: seq<string>)
    requires Labels(d) == pre + Labels(parent)
    ensures if pre == [] then d == parent else d == Join(pre, '.') + ['.'] + parent
  {
    JoinSplit(d, '.');
    JoinSplit(parent, '.');
    if pre == [] {
      assert pre + Labels(parent) == Labels(parent);
    } else {
      JoinConcat(pre, Labels(parent), '.');
    }
  }

  lemma ConcatIsSuffix(x: string, y: string)
    ensures IsSuffix(y, x + y)
  {
    assert (x + y)[|x|..] == y;
  }

  /** The code's string test is the label-wise subdomain relation. */
  lemma MatchesIffLabelSuffix(d: string, parent: string)
    ensures Matches(d, parent) <==> IsSuffix(Labels(parent), Labels(d))
  {
    if IsSuffix(Labels(parent), Labels(d)) {
      var pre := Labels(d)[..|Labels(d)| - |Labels(parent)|];
      LabelsGiveSuffix(d, parent, pre);
      if pre != [] {
        assert d == Join(pre, '.') + ("." + parent);
        ConcatIsSuffix(Join(pre, '.'), "." + parent);
      }
    } else if IsSuffix("." + parent, d) {
      var x := d[..|d| - |parent| - 1];
      assert d == x + ['.'] + parent;
      DottedSuffixGivesLabels(x, parent);
    }
  }

  /** `domain` is one of the allowed names or below one of them, label by label. */
  ghost predicate Allowed(domain: string, allowed: seq<string>) {
    exists k :: 0 <= k < |allowed| && IsSuffix(Labels(Normalize(allowed[k])), Labels(Normalize(domain)))
  }

  /** The loop over the allow-list decides exactly the label-wise relation. */
  method IsSubdomain(domain: string, allowed: seq<string>) returns (r: bool)
    ensures r <==> Allowed(domain, allowed)
  {
    var d := Normalize(domain);
    for k := 0 to |allowed|
      invariant forall j :: 0 <= j < k ==> !IsSuffix(Labels(Normalize(allowed[j])), Labels(d))
    {
      var parent := Normalize(allowed[k]);
      MatchesIffLabelSuffix(d, parent);
      if d == parent {
        return true;
      }
      if IsSuffix("." + parent, d) {
        return true;
      }
    }
    return false;
  }

  method AllAllowed(allowed: seq<string>, toCheck: seq<string>) returns (r: bool)
    ensures r <==> forall k :: 0 <= k < |toCheck| ==> Allowed(toCheck[k], allowed)
  {
    for k := 0 to |toCheck|
      invariant forall j :: 0 <= j < k ==> Allowed(toCheck[j], allowed)
    {
      var ok := IsSubdomain(toCheck[k], allowed);
      if !ok {
        return false;
      }
    }
    return true;
  }

  lemma SuffixTransitive<T>(a: seq<T>, b: seq<T>, c: seq<T>)
    requires IsSuffix(a, b) && IsSuffix(b, c)
    ensures IsSuffix(a, c)
  {
    assert c[|c| - |a|..] == c[|c| - |b|..][|b| - |a|..];
  }

  /** Being allowed is reflexive and transitive: whoever may use a name may use every
      name below it. */
  lemma AllowedPreorder(a: string, b: string, allowed: seq<string>)
    ensures Allowed(a, [a])
    ensures Allowed(a, [b]) && Allowed(b, allowed) ==> Allowed(a, allowed)
  {
    assert IsSuffix(Labels(Normalize([a][0])), Labels(Normalize(a)));
    if Allowed(a, [b]) && Allowed(b, allowed) {
      var k :| 0 <= k < |allowed| && IsSuffix(Labels(Normalize(allowed[k])), Labels(Normalize(b)));
      SuffixTransitive(Labels(Normalize(allowed[k])), Labels(Normalize(b)), Labels(Normalize(a)));
    }
  }

  // ---------------------------------------------------------------- the canonical key

  /** Byte order of strings. */
  predicate LexLess(a: string, b: string) {
    b != "" && (a == "" || a[0] < b[0] || (a[0] == b[0] && LexLess(a[1..], b[1..])))
  }

  /** The names agree up to position `k`, where `a` ends or has the smaller character. */
  predicate DiffersAt(a: string, b: string, k: nat) {
    k <= |a| && k < |b| && a[..k] == b[..k] && (k == |a| || a[k] < b[k])
  }

  lemma HeadsAgree(a: string, b: string, k: nat)
    requires DiffersAt(a, b, k)
    ensures k > 0 ==> a[0] == b[0]
  {
    if k > 0 {
      assert a[..k][0] == a[0] && b[..k][0] == b[0];
    }
  }

  /** The order is the lexical order of bytes. */
  lemma {:induction false} LexIsByteOrder(a: string, b: string)
    ensures LexLess(a, b) <==> exists k: nat :: DiffersAt(a, b, k)
  {
    if a == "" || b == "" || a[0] != b[0] {
      if LexLess(a, b) {
        assert DiffersAt(a, b, 0);
      }
      if k: nat :| DiffersAt(a, b, k) {
        HeadsAgree(a, b, k);
      }
    } else {
      LexIsByteOrder(a[1..], b[1..]);
      if k: nat :| DiffersAt(a[1..], b[1..], k) {
        assert a[..k + 1] == [a[0]] + a[1..][..k] && b[..k + 1] == [b[0]] + b[1..][..k];
        assert DiffersAt(a, b, k + 1);
      }
      if k: nat :| DiffersAt(a, b, k) {
        assert a[1..][..k - 1] == a[..k][1..] && b[1..][..k - 1] == b[..k][1..];
        assert DiffersAt(a[1..], b[1..], k - 1);
      }
    }
  }

  lemma {:induction false} LexTotal(a: string, b: string)
    ensures a == b || LexLess(a, b) || LexLess(b, a)
    ensures !(LexLess(a, b) && LexLess(b, a)) && !LexLess(a, a)
  {
    if a != "" && b != "" {
      LexTotal(a[1..], b[1..]);
      assert a == [a[0]] + a[1..] && b == [b[0]] + b[1..];
    }
    if a != "" {
      LexTotal(a[1..], a[1..]);
    }
  }

  lemma {:induction false} LexTransitive(a: string, b: string, c: string)
    requires LexLess(a, b) && LexLess(b, c)
    ensures LexLess(a, c)
  {
    if a != "" && a[0] == b[0] && b[0] == c[0] {
      LexTransitive(a[1..], b[1..], c[1..]);
    }
  }

  /** Sorted without duplicates. */
  ghost predicate Ascending(s: seq<string>) {
    forall i, j :: 0 <= i < j < |s| ==> LexLess(s[i], s[j])
  }

  function Elements(s: seq<string>): set<string> {
    set x | x in s
  }

  /** The set of non-empty normalised names of a bundle. */
  function CanonSet(domains: seq<string>): set<string> {
    set d | d in domains && Normalize(d) != "" :: Normalize(d)
  }

  /** A set has only one sorted duplicate-free listing. */
  lemma {:induction false} AscendingUnique(a: seq<string>, b: seq<string>)
    requires Ascending(a) && Ascending(b) && Elements(a) == Elements(b)
    ensures a == b
  {
    EmptyElements(a);
    EmptyElements(b);
    if a != [] {
      assert a[0] in Elements(b);
      assert b[0] in Elements(a);
      HeadIsLeast(a, b[0]);
      HeadIsLeast(b, a[0]);
      LexTotal(a[0], b[0]);
      TailElements(a);
      TailElements(b);
      AscendingUnique(a[1..], b[1..]);
    }
  }

  lemma EmptyElements(s: seq<string>)
    ensures Elements(s) == {} <==> s == []
  {
    if s != [] {
      assert s[0] in Elements(s);
    }
  }

  lemma ElementsCons(x: string, s: seq<string>)
    ensures Elements([x] + s) == {x} + Elements(s)
  {
  }

  lemma HeadIsLeast(a: seq<string>, x: string)
    requires Ascending(a) && x in a
    ensures x == a[0] || LexLess(a[0], x)
  {
  }

  lemma TailElements(a: seq<string>)
    requires Ascending(a) && a != []
    ensures Ascending(a[1..]) && Elements(a[1..]) == Elements(a) - {a[0]}
  {
    LexTotal(a[0], a[0]);
    assert forall k :: 0 < k < |a| ==> LexLess(a[0], a[k]);
    forall x | x in Elements(a) - {a[0]} ensures x in Elements(a[1..]) {
      var k :| 0 <= k < |a| && a[k] == x;
      assert a[1..][k - 1] == x;
    }
  }

  /** One insertion of the sort. */
  function Insert(x: string, s: seq<string>): seq<string> {
    if s == [] || LexLess(x, s[0]) then [x] + s else [s[0]] + Insert(x, s[1..])
  }

  lemma {:induction false} InsertElements(x: string, s: seq<string>)
    ensures Elements(Insert(x, s)) == Elements(s) + {x}
  {
    ElementsCons(x, s);
    if s != [] && !LexLess(x, s[0]) {
      InsertElements(x, s[1..]);
      assert s == [s[0]] + s[1..];
      ElementsCons(s[0], s[1..]);
      ElementsCons(s[0], Insert(x, s[1..]));
    }
  }

  lemma {:induction false} InsertAscending(x: string, s: seq<string>)
    requires Ascending(s) && x !in s
    ensures Ascending(Insert(x, s))
  {
    if s == [] {
    } else if LexLess(x, s[0]) {
      forall k | 0 <= k < |s| ensures LexLess(x, s[k]) {
        if k > 0 {
          LexTransitive(x, s[0], s[k]);
        }
      }
    } else {
      LexTotal(x, s[0]);
      InsertAscending(x, s[1..]);
      InsertElements(x, s[1..]);
      var r := Insert(x, s[1..]);
      forall k | 0 <= k < |r| ensures LexLess(s[0], r[k]) {
        assert r[k] in Elements(r);
        if r[k] != x {
          HeadIsLeast(s, r[k]);
          TailElements(s);
        }
      }
    }
  }

  /** sort.Strings. */
  function SortStrings(s: seq<string>): seq<string> {
    if s == [] then [] else Insert(s[0], SortStrings(s[1..]))
  }

  ghost predicate Distinct(s: seq<string>) {
    forall i, j :: 0 <= i < j < |s| ==> s[i] != s[j]
  }

  lemma {:induction false} SortSorts(s: seq<string>)
    requires Distinct(s)
    ensures Ascending(SortStrings(s)) && Elements(SortStrings(s)) == Elements(s)
  {
    if s != [] {
      SortSorts(s[1..]);
      assert s == [s[0]] + s[1..];
      assert s[0] !in Elements(s[1..]);
      assert s[0] !in Elements(SortStrings(s[1..]));
      InsertAscending(s[0], SortStrings(s[1..]));
      InsertElements(s[0], SortStrings(s[1..]));
    }
  }

  /** `canon` is the canonical listing of the bundle. */
  ghost predicate IsCanon(domains: seq<string>, canon: seq<string>) {
    Ascending(canon) && Elements(canon) == CanonSet(domains)
  }

  lemma GrowsBy(domains: seq<string>, d: string)
    ensures CanonSet(domains + [d]) == CanonSet(domains) + if Normalize(d) == "" then {} else {Normalize(d)}
  {
  }

  /** A listing exists for every bundle. */
  lemma {:induction false} CanonExists(domains: seq<string>) returns (canon: seq<string>)
    ensures IsCanon(domains, canon)
  {
    if domains == [] {
      canon := [];
    } else {
      var n := |domains| - 1;
      assert domains == domains[..n] + [domains[n]];
      var rest := CanonExists(domains[..n]);
      var d := Normalize(domains[n]);
      GrowsBy(domains[..n], domains[n]);
      if d == "" || d in rest {
        assert d in rest ==> d in Elements(rest);
        canon := rest;
      } else {
        InsertAscending(d, rest);
        InsertElements(d, rest);
        canon := Insert(d, rest);
      }
    }
  }

  /** What AsKey hashes, as a function of the bundle. */
  ghost function Canon(domains: seq<string>): (canon: seq<string>)
    ensures IsCanon(domains, canon)
  {
    CanonIsThere(domains);
    var canon :| IsCanon(domains, canon);
    canon
  }

  lemma CanonIsThere(domains: seq<string>)
    ensures exists canon :: IsCanon(domains, canon)
  {
    var canon := CanonExists(domains);
  }

  ghost function HashInput(domains: seq<string>): string {
    Join(Canon(domains), NUL)
  }

  predicate NulFree(domains: seq<string>) {
    forall d :: d in domains ==> '\0' !in d
  }

  /** Every canonical listing joins to the bundle's hash input. */
  lemma KeyInputIsHashInput(domains: seq<string>, canon: seq<string>)
    requires IsCanon(domains, canon)
    ensures Join(canon, NUL) == HashInput(domains)
  {
    AscendingUnique(canon, Canon(domains));
  }

  /** AsKey up to the hash: drop empties and duplicates, sort, join with NUL. */
  method KeyInput(domains: seq<string>) returns (input: string)
    ensures input == HashInput(domains)
  {
    var canon: seq<string> := [];
    var seen: set<string> := {};
    for k := 0 to |domains|
      invariant Distinct(canon) && Elements(canon) == seen == CanonSet(domains[..k])
    {
      var d := Normalize(domains[k]);
      assert domains[..k + 1] == domains[..k] + [domains[k]];
      GrowsBy(domains[..k], domains[k]);
      if d == "" {
        continue;
      }
      if d in seen {
        continue;
      }
      assert d !in Elements(canon);
      seen := seen + {d};
      canon := canon + [d];
    }
    assert domains[..|domains|] == domains;
    SortSorts(canon);
    canon := SortStrings(canon);
    KeyInputIsHashInput(domains, canon);
    input := Join(canon, NUL);
  }

  lemma CanonNulFree(domains: seq<string>)
    requires NulFree(domains)
    ensures forall f :: f in Canon(domains) ==> NUL !in f && f != ""
  {
    forall f | f in Canon(domains) ensures NUL !in f && f != "" {
      assert f in Elements(Canon(domains));
      var d :| d in domains && Normalize(d) != "" && f == Normalize(d);
      assert NUL !in d;
    }
  }

  /** Canonical key. Bundles with the same set of non-empty normalised names hash the same
      input, and for NUL-free names only those do. */
  lemma SameKeyIffSameSet(a: seq<string>, b: seq<string>)
    ensures CanonSet(a) == CanonSet(b) ==> HashInput(a) == HashInput(b)
    ensures NulFree(a) && NulFree(b) && HashInput(a) == HashInput(b) ==> CanonSet(a) == CanonSet(b)
  {
    if CanonSet(a) == CanonSet(b) {
      AscendingUnique(Canon(a), Canon(b));
    }
    if NulFree(a) && NulFree(b) && HashInput(a) == HashInput(b) {
      CanonNulFree(a);
      CanonNulFree(b);
      JoinInjective(Canon(a), Canon(b));
    }
  }

  lemma JoinInjective(a: seq<string>, b: seq<string>)
    requires forall f :: f in a ==> NUL !in f && f != ""
    requires forall f :: f in b ==> NUL !in f && f != ""
    requires Join(a, NUL) == Join(b, NUL)
    ensures a == b
  {
    if a != [] {
      SplitJoin(a, NUL);
      assert a[0] in a;
    }
    if b != [] {
      SplitJoin(b, NUL);
      assert b[0] in b;
    }
  }

  /** Case and a final dot do not matter. Name lists that agree position by position up to case
      and one final dot have the same hash input, and the same of their names are allowed,
      whichever way the allow-list is spelt. */
  lemma SpellingDoesNotMatter(a: seq<string>, b: seq<string>)
    requires |a| == |b| && forall i :: 0 <= i < |a| ==> EqualFold(TrimDot(a[i]), TrimDot(b[i]))
    ensures HashInput(a) == HashInput(b)
    ensures forall x, y :: EqualFold(TrimDot(x), TrimDot(y)) ==> (Allowed(x, a) <==> Allowed(y, b))
  {
    forall i | 0 <= i < |a| ensures Normalize(a[i]) == Normalize(b[i]) {
      NormalForm(a[i], b[i]);
    }
    SameNormalForms(a, b);
    SameNormalForms(b, a);
    assert CanonSet(a) == CanonSet(b);
    SameKeyIffSameSet(a, b);
    forall x, y | EqualFold(TrimDot(x), TrimDot(y)) ensures Allowed(x, a) <==> Allowed(y, b) {
      NormalForm(x, y);
      AllowedReadsNormalForm(x, y, a);
      AllowedReadsList(y, a, b);
      AllowedReadsList(y, b, a);
    }
  }

  lemma SameNormalForms(a: seq<string>, b: seq<string>)
    requires |a| == |b| && forall i :: 0 <= i < |a| ==> Normalize(a[i]) == Normalize(b[i])
    ensures CanonSet(a) <= CanonSet(b)
  {
    forall n | n in CanonSet(a) ensures n in CanonSet(b) {
      var d :| d in a && Normalize(d) != "" && n == Normalize(d);
      var i :| 0 <= i < |a| && a[i] == d;
      assert b[i] in b;
    }
  }

  lemma AllowedReadsList(x: string, a: seq<string>, b: seq<string>)
    requires |a| == |b| && forall i :: 0 <= i < |a| ==> Normalize(a[i]) == Normalize(b[i])
    ensures Allowed(x, a) ==> Allowed(x, b)
  {
    if Allowed(x, a) {
      var k :| 0 <= k < |a| && IsSuffix(Labels(Normalize(a[k])), Labels(Normalize(x)));
      assert IsSuffix(Labels(Normalize(b[k])), Labels(Normalize(x)));
    }
  }

  /** Allow-list through the cache. When a permitted request hits an entry of the same
      canonical set, every name that entry would send to ACME is permitted, save that a
      name normalising to nothing is permitted only if the allow-list admits it. */
  lemma PermittedThroughCache(allowed: seq<string>, request: seq<string>, entry: seq<string>)
    requires forall k :: 0 <= k < |request| ==> Allowed(request[k], allowed)
    requires CanonSet(request) == CanonSet(entry)
    ensures forall k :: 0 <= k < |entry| && Normalize(entry[k]) != "" ==> Allowed(entry[k], allowed)
    ensures (forall k :: 0 <= k < |entry| ==> Allowed(entry[k], allowed))
            <==> (Allowed("", allowed) || forall k :: 0 <= k < |entry| ==> Normalize(entry[k]) != "")
  {
    forall k | 0 <= k < |entry| && Normalize(entry[k]) != "" ensures Allowed(entry[k], allowed) {
      assert entry[k] in entry;
      assert Normalize(entry[k]) in CanonSet(request);
      var d :| d in request && Normalize(d) != "" && Normalize(d) == Normalize(entry[k]);
      var j :| 0 <= j < |request| && request[j] == d;
      assert Allowed(request[j], allowed);
      AllowedReadsNormalForm(d, entry[k], allowed);
    }
    forall k | 0 <= k < |entry| && Normalize(entry[k]) == ""
      ensures Allowed(entry[k], allowed) <==> Allowed("", allowed)
    {
      assert Normalize("") == "";
      AllowedReadsNormalForm(entry[k], "", allowed);
    }
  }

  lemma AllowedReadsNormalForm(a: string, b: string, allowed: seq<string>)
    requires Normalize(a) == Normalize(b)
    ensures Allowed(a, allowed) <==> Allowed(b, allowed)
  {
  }
}
