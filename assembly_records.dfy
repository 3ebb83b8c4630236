/** What both assembly loggers read from reflection, as plain records, and
    the helpers they share: the lowercase hexadecimal rendering of a public
    key token, and the prefix filters and name ordering of the assemblies
    they report. */
module AssemblyRecords {
  import opened Wrappers

  newtype byte = x: int | 0 <= x < 256

  /** A `CultureInfo`: the invariant culture, or another one shown by its
      display name. */
  datatype Culture = InvariantCulture | SpecificCulture(displayName: string)

  /** An `AssemblyName`: its full and simple names, its version already
      rendered by `Version.ToString()`, its culture and its public key
      token, each possibly null. */
  datatype AssemblyName = AssemblyName(fullName: Option<string>, name: Option<string>, version: Option<string>,
                                       culture: Option<Culture>, publicKeyToken: Option<seq<byte>>)

  /** An `Assembly`: its name (`GetName()`, whose full name is the
      assembly's `FullName`), its location on disk, the display name of its
      target framework attribute, and the names it references. */
  datatype Assembly = Assembly(assemblyName: AssemblyName, location: string, frameworkName: Option<string>,
                               references: seq<Option<AssemblyName>>)

  const OrganizationPrefix: string := "XamarinFiles"
  const PackagePrefix: string := OrganizationPrefix + "."

  // --------------------------------------------------- public key token

  predicate IsHexDigit(c: char) {
    '0' <= c <= '9' || 'a' <= c <= 'f'
  }

  /** The lowercase hexadecimal digit of a value below sixteen. */
  function HexDigit(d: nat): (c: char)
    requires d < 16
    ensures IsHexDigit(c)
  {
    if d < 10 then ('0' as int + d) as char else ('a' as int + d - 10) as char
  }

  /** `{b:x2}`: two lowercase hexadecimal digits, the high one first. */
  function HexByte(b: byte): (r: string)
    ensures |r| == 2 && IsHexDigit(r[0]) && IsHexDigit(r[1])
  {
    [HexDigit(b as int / 16), HexDigit(b as int % 16)]
  }

  /** Every byte rendered in turn: two lowercase hexadecimal digits per
      byte. */
  function Hex(bytes: seq<byte>): (r: string)
    ensures |r| == 2 * |bytes|
    ensures forall i :: 0 <= i < |r| ==> IsHexDigit(r[i])
  {
    if bytes == [] then "" else Hex(bytes[..|bytes| - 1]) + HexByte(bytes[|bytes| - 1])
  }

  /** What `GetPublicKeyToken` returns: nothing for a null array, the hex
      rendering otherwise. */
  function TokenText(byteArray: Option<seq<byte>>): string {
    if byteArray.None? then "" else Hex(byteArray.value)
  }

  /** `GetPublicKeyToken`: appends the two digits of each byte in turn;
      a null or empty array gives the empty text. */
  method GetPublicKeyToken(byteArray: Option<seq<byte>>) returns (byteString: string)
    ensures byteString == TokenText(byteArray)
  {
    byteString := "";
    if byteArray.None? || |byteArray.value| == 0 {
      return;
    }
    var bytes := byteArray.value;
    for i := 0 to |bytes|
      invariant byteString == Hex(bytes[..i])
    {
      assert bytes[..i + 1][..i] == bytes[..i];
      byteString := byteString + HexByte(bytes[i]);
    }
    assert bytes[..|bytes|] == bytes;
  }

  /** The value of a lowercase hexadecimal digit. */
  function DigitValue(c: char): (v: nat)
    requires IsHexDigit(c)
    ensures v < 16 && HexDigit(v) == c
  {
    if '0' <= c <= '9' then c as int - '0' as int else c as int - 'a' as int + 10
  }

  lemma DigitValueOf(d: nat)
    requires d < 16
    ensures DigitValue(HexDigit(d)) == d
  {
  }

  /** Reading a rendering back: each pair of digits is one byte. */
  function Unhex(s: string): (r: seq<byte>)
    requires |s| % 2 == 0 && forall i :: 0 <= i < |s| ==> IsHexDigit(s[i])
    ensures |r| == |s| / 2
  {
    if s == [] then []
    else
      var n := |s|;
      Unhex(s[..n - 2]) + [(16 * DigitValue(s[n - 2]) + DigitValue(s[n - 1])) as byte]
  }

  /** The rendering loses nothing: reading it back gives the bytes. */
  lemma {:induction false} UnhexHex(bytes: seq<byte>)
    ensures Unhex(Hex(bytes)) == bytes
  {
    if bytes != [] {
      var front := bytes[..|bytes| - 1];
      var last := bytes[|bytes| - 1];
      var h := Hex(bytes);
      assert h[..|h| - 2] == Hex(front);
      assert h[|h| - 2] == HexDigit(last as int / 16) && h[|h| - 1] == HexDigit(last as int % 16);
      DigitValueOf(last as int / 16);
      DigitValueOf(last as int % 16);
      UnhexHex(front);
      assert bytes == front + [last];
    }
  }

  /** And every text of lowercase digit pairs is the rendering of its
      reading, so rendering is a one-to-one correspondence. */
  lemma {:induction false} HexUnhex(s: string)
    requires |s| % 2 == 0 && forall i :: 0 <= i < |s| ==> IsHexDigit(s[i])
    ensures Hex(Unhex(s)) == s
  {
    if s != [] {
      var n := |s|;
      var front := s[..n - 2];
      HexUnhex(front);
      var b := (16 * DigitValue(s[n - 2]) + DigitValue(s[n - 1])) as byte;
      var r := Unhex(s);
      assert r[..|r| - 1] == Unhex(front) && r[|r| - 1] == b;
      assert b as int / 16 == DigitValue(s[n - 2]) && b as int % 16 == DigitValue(s[n - 1]);
      assert s == front + [s[n - 2], s[n - 1]];
    }
  }

  /** The token is empty exactly when the array is null or empty. */
  lemma TokenEmpty(byteArray: Option<seq<byte>>)
    ensures TokenText(byteArray) == "" <==> byteArray.None? || byteArray.value == []
  {
  }

  /** Rendering a concatenation renders each part in turn. */
  lemma {:induction false} HexConcat(a: seq<byte>, b: seq<byte>)
    ensures Hex(a + b) == Hex(a) + Hex(b)
    decreases |b|
  {
    if b == [] {
      assert a + b == a;
    } else {
      var ab := a + b;
      var front := b[..|b| - 1];
      assert ab[..|ab| - 1] == a + front && ab[|ab| - 1] == b[|b| - 1];
      HexConcat(a, front);
      assert Hex(ab) == Hex(a) + Hex(front) + HexByte(b[|b| - 1]);
    }
  }

  /** The digits of the bytes of the runtime token below. */
  lemma RuntimeTokenBytes()
    ensures HexByte(0xb7) == "b7" && HexByte(0x7a) == "7a" && HexByte(0x5c) == "5c" && HexByte(0x56) == "56"
    ensures HexByte(0x19) == "19" && HexByte(0x34) == "34" && HexByte(0xe0) == "e0" && HexByte(0x89) == "89"
  {
  }

  /** The token of the public key most .NET runtime assemblies are signed
      with. */
  lemma RuntimeToken()
    ensures TokenText(Some([0xb7, 0x7a, 0x5c, 0x56, 0x19, 0x34, 0xe0, 0x89])) == "b77a5c561934e089"
  {
    var b: seq<byte> := [0xb7, 0x7a, 0x5c, 0x56, 0x19, 0x34, 0xe0, 0x89];
    RuntimeTokenBytes();
    assert b[..1] == [0xb7] && b[..2][..1] == b[..1];
    assert Hex(b[..2]) == "b77a";
    assert b[..3][..2] == b[..2];
    assert Hex(b[..3]) == "b77a5c";
    assert b[..4][..3] == b[..3];
    assert Hex(b[..4]) == "b77a5c56";
    assert b[..5][..4] == b[..4];
    assert Hex(b[..5]) == "b77a5c5619";
    assert b[..6][..5] == b[..5];
    assert Hex(b[..6]) == "b77a5c561934";
    assert b[..7][..6] == b[..6];
    assert Hex(b[..7]) == "b77a5c561934e0";
    assert b[..7] == b[..|b| - 1];
  }

  // ------------------------------------------------------------ filters

  /** `string.StartsWith(prefix)`. */
  predicate StartsWith(s: string, prefix: string) {
    |prefix| <= |s| && s[..|prefix|] == prefix
  }

  /** The domain assemblies reported: a full name starting with the
      package prefix, and a location other than the executing assembly's. */
  predicate KeptDomainAssembly(a: Assembly, assemblyPath: string) {
    a.assemblyName.fullName.Some? && StartsWith(a.assemblyName.fullName.value, PackagePrefix)
    && a.location != assemblyPath
  }

  /** The referenced names reported: present, with a full name starting
      with the package prefix. */
  predicate KeptReference(n: Option<AssemblyName>) {
    n.Some? && n.value.fullName.Some? && StartsWith(n.value.fullName.value, PackagePrefix)
  }

  /** `Where(KeptDomainAssembly)`, in order. */
  function DomainCandidates(all: seq<Assembly>, assemblyPath: string): (r: seq<Assembly>)
    ensures forall a :: a in r <==> a in all && KeptDomainAssembly(a, assemblyPath)
    ensures forall a | KeptDomainAssembly(a, assemblyPath) :: multiset(r)[a] == multiset(all)[a]
    ensures forall a | !KeptDomainAssembly(a, assemblyPath) :: multiset(r)[a] == 0
  {
    if all == [] then []
    else
      var rest := DomainCandidates(all[..|all| - 1], assemblyPath);
      var last := all[|all| - 1];
      assert all == all[..|all| - 1] + [last];
      if KeptDomainAssembly(last, assemblyPath) then rest + [last] else rest
  }

  /** `Where(KeptReference)`, in order, the names unwrapped. */
  function ReferenceCandidates(refs: seq<Option<AssemblyName>>): (r: seq<AssemblyName>)
    ensures forall n :: n in r <==> Some(n) in refs && KeptReference(Some(n))
    ensures forall n | KeptReference(Some(n)) :: multiset(r)[n] == multiset(refs)[Some(n)]
    ensures forall n | !KeptReference(Some(n)) :: multiset(r)[n] == 0
  {
    if refs == [] then []
    else
      var rest := ReferenceCandidates(refs[..|refs| - 1]);
      var last := refs[|refs| - 1];
      assert refs == refs[..|refs| - 1] + [last];
      if KeptReference(last) then rest + [last.value] else rest
  }

  // ----------------------------------------------------------- ordering

  /** Ordinal order of texts: the first differing character decides, and a
      text comes before any text it starts. */
  predicate OrdinalLessEq(a: string, b: string) {
    if a == [] then true
    else if b == [] then false
    else if a[0] != b[0] then a[0] < b[0]
    else OrdinalLessEq(a[1..], b[1..])
  }

  lemma {:induction false} OrdinalTotal(a: string, b: string)
    ensures OrdinalLessEq(a, b) || OrdinalLessEq(b, a)
  {
    if a != [] && b != [] && a[0] == b[0] {
      OrdinalTotal(a[1..], b[1..]);
    }
  }

  lemma {:induction false} OrdinalTransitive(a: string, b: string, c: string)
    requires OrdinalLessEq(a, b) && OrdinalLessEq(b, c)
    ensures OrdinalLessEq(a, c)
  {
    if a != [] && b != [] && c != [] && a[0] == b[0] && b[0] == c[0] {
      OrdinalTransitive(a[1..], b[1..], c[1..]);
    }
  }

  /** The full name of a referenced name, the key its sort orders by; the
      filter has already dropped the names without one. */
  function FullName(n: AssemblyName): string {
    n.fullName.GetOr("")
  }

  /** The full name of an assembly, the key its sort orders by. */
  function AssemblyFullName(a: Assembly): string {
    a.assemblyName.fullName.GetOr("")
  }

  predicate SortedBy<T>(s: seq<T>, key: T -> string) {
    forall i, j :: 0 <= i < j < |s| ==> OrdinalLessEq(key(s[i]), key(s[j]))
  }

  /** `x` placed before the first element whose key comes strictly after
      its own, so after the elements with the same key. */
  function Insert<T(==)>(x: T, s: seq<T>, key: T -> string): (r: seq<T>)
    requires SortedBy(s, key)
    ensures SortedBy(r, key) && multiset(r) == multiset(s) + multiset{x}
  {
    if s == [] then [x]
    else if OrdinalLessEq(key(x), key(s[0])) && key(x) != key(s[0]) then
      InsertedFirst(x, s, key);
      [x] + s
    else
      var rest := Insert(x, s[1..], key);
      InsertedAfter(x, s, rest, key);
      assert s == [s[0]] + s[1..];
      [s[0]] + rest
  }

  lemma InsertedFirst<T>(x: T, s: seq<T>, key: T -> string)
    requires SortedBy(s, key) && s != [] && OrdinalLessEq(key(x), key(s[0]))
    ensures SortedBy([x] + s, key)
  {
    var r := [x] + s;
    forall i, j | 0 <= i < j < |r|
      ensures OrdinalLessEq(key(r[i]), key(r[j]))
    {
      if i == 0 && j > 1 {
        OrdinalTransitive(key(x), key(s[0]), key(s[j - 1]));
      }
    }
  }

  lemma InsertedAfter<T>(x: T, s: seq<T>, rest: seq<T>, key: T -> string)
    requires SortedBy(s, key) && s != [] && SortedBy(rest, key)
    requires !(OrdinalLessEq(key(x), key(s[0])) && key(x) != key(s[0]))
    requires multiset(rest) == multiset(s[1..]) + multiset{x}
    ensures SortedBy([s[0]] + rest, key)
  {
    var r := [s[0]] + rest;
    OrdinalAfter(key(s[0]), key(x));
    forall i, j | 0 <= i < j < |r|
      ensures OrdinalLessEq(key(r[i]), key(r[j]))
    {
      if i == 0 {
        var y := rest[j - 1];
        assert y in multiset(rest);
        if y != x {
          assert y in multiset(s[1..]);
          var k :| 0 <= k < |s[1..]| && s[1..][k] == y;
          assert s[k + 1] == y;
        }
      }
    }
  }

  /** A text comes after another that does not come strictly before it. */
  lemma OrdinalAfter(a: string, x: string)
    requires OrdinalLessEq(x, a) ==> x == a
    ensures OrdinalLessEq(a, x)
  {
    OrdinalTotal(a, x);
    if x == a {
      OrdinalReflexive(a);
    }
  }

  lemma {:induction false} OrdinalReflexive(a: string)
    ensures OrdinalLessEq(a, a)
  {
    if a != [] {
      OrdinalReflexive(a[1..]);
    }
  }

  /** `OrderBy(key)`: the same elements, ordered by their keys. */
  function SortBy<T(==)>(s: seq<T>, key: T -> string): (r: seq<T>)
    ensures SortedBy(r, key) && multiset(r) == multiset(s)
  {
    if s == [] then []
    else
      assert s == s[..|s| - 1] + [s[|s| - 1]];
      Insert(s[|s| - 1], SortBy(s[..|s| - 1], key), key)
  }

  // -------------------------------------------------------- stability

  /** The elements of `s` whose key is `k`, in the order of `s`. */
  function WithKey<T>(s: seq<T>, key: T -> string, k: string): seq<T> {
    if s == [] then [] else KeyRun(s[0], key, k) + WithKey(s[1..], key, k)
  }

  /** `x` alone when its key is `k`, else nothing. */
  function KeyRun<T>(x: T, key: T -> string, k: string): seq<T> {
    if key(x) == k then [x] else []
  }

  lemma {:induction false} WithKeyAppend<T>(a: seq<T>, b: seq<T>, key: T -> string, k: string)
    ensures WithKey(a + b, key, k) == WithKey(a, key, k) + WithKey(b, key, k)
  {
    if a == [] {
      assert a + b == b;
    } else {
      var ab := a + b;
      assert ab[0] == a[0] && ab[1..] == a[1..] + b;
      WithKeyAppend(a[1..], b, key, k);
      assert WithKey(ab, key, k) == KeyRun(a[0], key, k) + (WithKey(a[1..], key, k) + WithKey(b, key, k));
    }
  }

  lemma {:induction false} OrdinalAntisymmetric(a: string, b: string)
    requires OrdinalLessEq(a, b) && OrdinalLessEq(b, a)
    ensures a == b
  {
    if a != [] && b != [] {
      OrdinalAntisymmetric(a[1..], b[1..]);
      assert a == [a[0]] + a[1..] && b == [b[0]] + b[1..];
    }
  }

  /** A sorted sequence whose first key comes strictly after `k` holds no
      element with key `k`. */
  lemma {:induction false} WithKeyNone<T>(s: seq<T>, key: T -> string, k: string)
    requires SortedBy(s, key) && s != [] && OrdinalLessEq(k, key(s[0])) && k != key(s[0])
    ensures WithKey(s, key, k) == []
  {
    if |s| > 1 {
      OrdinalTransitive(k, key(s[0]), key(s[1]));
      if k == key(s[1]) {
        OrdinalAntisymmetric(k, key(s[0]));
      }
      WithKeyNone(s[1..], key, k);
    }
  }

  /** An element placed before a sorted sequence whose keys all come
      strictly after its own is the last of its key. */
  lemma FrontStable<T>(x: T, s: seq<T>, key: T -> string, k: string)
    requires SortedBy(s, key) && s != [] && OrdinalLessEq(key(x), key(s[0])) && key(x) != key(s[0])
    ensures WithKey([x] + s, key, k) == WithKey(s, key, k) + KeyRun(x, key, k)
  {
    var r := [x] + s;
    assert r[0] == x && r[1..] == s;
    assert WithKey(r, key, k) == KeyRun(x, key, k) + WithKey(s, key, k);
    if key(x) == k {
      WithKeyNone(s, key, k);
    } else {
      assert KeyRun(x, key, k) == [];
    }
  }

  /** `Insert` puts its element after every element with the same key and
      leaves the order of every key's elements as it was. */
  lemma {:induction false} InsertStable<T>(x: T, s: seq<T>, key: T -> string, k: string)
    requires SortedBy(s, key)
    ensures WithKey(Insert(x, s, key), key, k) == WithKey(s, key, k) + KeyRun(x, key, k)
  {
    if s == [] {
      assert Insert(x, s, key) == [x];
      assert WithKey([x], key, k) == KeyRun(x, key, k) + WithKey([], key, k);
    } else if OrdinalLessEq(key(x), key(s[0])) && key(x) != key(s[0]) {
      assert Insert(x, s, key) == [x] + s;
      FrontStable(x, s, key, k);
    } else {
      var rest := Insert(x, s[1..], key);
      var r := [s[0]] + rest;
      assert Insert(x, s, key) == r;
      InsertStable(x, s[1..], key, k);
      assert r[0] == s[0] && r[1..] == rest;
      assert WithKey(r, key, k) == KeyRun(s[0], key, k) + WithKey(rest, key, k);
      assert WithKey(s, key, k) == KeyRun(s[0], key, k) + WithKey(s[1..], key, k);
    }
  }

  /** `OrderBy` is a stable sort: the elements with any one key come out
      in the order they went in. */
  lemma {:induction false} SortByStable<T>(s: seq<T>, key: T -> string, k: string)
    ensures WithKey(SortBy(s, key), key, k) == WithKey(s, key, k)
  {
    if s != [] {
      var init, last := s[..|s| - 1], s[|s| - 1];
      assert s == init + [last];
      WithKeyAppend(init, [last], key, k);
      var sorted := SortBy(init, key);
      assert SortBy(s, key) == Insert(last, sorted, key);
      SortByStable(init, key, k);
      InsertStable(last, sorted, key, k);
      assert WithKey([last], key, k) == KeyRun(last, key, k) + WithKey([], key, k);
    }
  }

  /** The domain assemblies a report lists: each kept assembly as often as
      it occurs, nothing else, ordered by full name. */
  function DomainAssemblies(all: seq<Assembly>, assemblyPath: string): (r: seq<Assembly>)
    ensures SortedBy(r, AssemblyFullName)
    ensures forall a :: multiset(r)[a] == if KeptDomainAssembly(a, assemblyPath) then multiset(all)[a] else 0
  {
    SortBy(DomainCandidates(all, assemblyPath), AssemblyFullName)
  }

  /** The referenced names a report lists under a domain assembly: each
      kept name as often as it occurs, nothing else, ordered by full name. */
  function ReferenceNames(refs: seq<Option<AssemblyName>>): (r: seq<AssemblyName>)
    ensures SortedBy(r, FullName)
    ensures forall n :: multiset(r)[n] == if KeptReference(Some(n)) then multiset(refs)[Some(n)] else 0
  {
    SortBy(ReferenceCandidates(refs), FullName)
  }
}
