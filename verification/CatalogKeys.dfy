/** Cache keys of the product catalog: decimal fields, base64url keywords, ':' between fields. */
module CatalogKeys {
  import opened Options

  type Byte = x: int | 0 <= x < 256

  // ---- UTF-8 -----------------------------------------------------------------------------------------

  function Utf8(c: char): seq<Byte> {
    var n := c as int;
    if n < 0x80 then [n]
    else if n < 0x800 then [0xC0 + n / 64, 0x80 + n % 64]
    else if n < 0x10000 then [0xE0 + n / 64 / 64, 0x80 + n / 64 % 64, 0x80 + n % 64]
    else [0xF0 + n / 64 / 64 / 64, 0x80 + n / 64 / 64 % 64, 0x80 + n / 64 % 64, 0x80 + n % 64]
  }

  function CodePoint(b: seq<int>): int {
    if |b| == 1 then b[0]
    else if |b| == 2 then (b[0] - 0xC0) * 64 + b[1] - 0x80
    else if |b| == 3 then ((b[0] - 0xE0) * 64 + b[1] - 0x80) * 64 + b[2] - 0x80
    else if |b| == 4 then (((b[0] - 0xF0) * 64 + b[1] - 0x80) * 64 + b[2] - 0x80) * 64 + b[3] - 0x80
    else 0
  }

  lemma Utf8RoundTrip(c: char)
    ensures CodePoint(Utf8(c)) == c as int
  {
    var n := c as int;
    assert n == n / 64 * 64 + n % 64;
    assert n / 64 == n / 64 / 64 * 64 + n / 64 % 64;
    assert n / 64 / 64 == n / 64 / 64 / 64 * 64 + n / 64 / 64 % 64;
  }

  function Utf8All(s: string): seq<Byte> {
    if s == "" then [] else Utf8(s[0]) + Utf8All(s[1..])
  }

  /** The first byte fixes the length, and the bytes fix the character. */
  lemma Utf8Prefix(c: char, d: char, s: seq<Byte>, t: seq<Byte>)
    requires Utf8(c) + s == Utf8(d) + t
    ensures c == d && s == t
  {
    var a, b := Utf8(c), Utf8(d);
    assert (a + s)[0] == a[0] && (b + t)[0] == b[0];
    assert |a| == |b|;
    assert a == (a + s)[..|a|] && b == (b + t)[..|b|];
    Utf8RoundTrip(c);
    Utf8RoundTrip(d);
    assert s == (a + s)[|a|..] && t == (b + t)[|b|..];
  }

  lemma {:induction false} Utf8Injective(s: string, t: string)
    requires Utf8All(s) == Utf8All(t)
    ensures s == t
  {
    if s != "" && t != "" {
      Utf8Prefix(s[0], t[0], Utf8All(s[1..]), Utf8All(t[1..]));
      Utf8Injective(s[1..], t[1..]);
    }
  }

  // ---- base64url, section 5 of RFC 4648 ------------------------------------------------------------------

  function Letter(i: int): char
    requires 0 <= i < 64
  {
    if i < 26 then (i + 65) as char        // A..Z
    else if i < 52 then (i + 71) as char   // a..z
    else if i < 62 then (i - 4) as char    // 0..9
    else if i == 62 then '-' else '_'
  }

  function LetterValue(c: char): int {
    if 'A' <= c <= 'Z' then c as int - 65
    else if 'a' <= c <= 'z' then c as int - 71
    else if '0' <= c <= '9' then c as int + 4
    else if c == '-' then 62 else 63
  }

  lemma LetterRoundTrip(i: int)
    requires 0 <= i < 64
    ensures LetterValue(Letter(i)) == i && Letter(i) != '=' && Letter(i) != ':'
  {
  }

  function Group(a: Byte, b: Byte, c: Byte): string {
    [Letter(a / 4), Letter(a % 4 * 16 + b / 16), Letter(b % 16 * 4 + c / 64), Letter(c % 64)]
  }

  function Encode(b: seq<Byte>): string {
    if b == [] then ""
    else if |b| == 1 then [Letter(b[0] / 4), Letter(b[0] % 4 * 16), '=', '=']
    else if |b| == 2 then [Letter(b[0] / 4), Letter(b[0] % 4 * 16 + b[1] / 16), Letter(b[1] % 16 * 4), '=']
    else
      Group(b[0], b[1], b[2]) + Encode(b[3..])
  }

  function Decode(s: string): seq<int> {
    if |s| < 4 then []
    else
      var p, q, r, t := LetterValue(s[0]), LetterValue(s[1]), LetterValue(s[2]), LetterValue(s[3]);
      if s[2] == '=' then [p * 4 + q / 16]
      else if s[3] == '=' then [p * 4 + q / 16, q % 16 * 16 + r / 4]
      else [p * 4 + q / 16, q % 16 * 16 + r / 4, r % 4 * 64 + t] + Decode(s[4..])
  }

  lemma DecodeGroup(a: Byte, b: Byte, c: Byte)
    ensures LetterValue(Letter(a / 4)) * 4 + LetterValue(Letter(a % 4 * 16 + b / 16)) / 16 == a
    ensures LetterValue(Letter(a % 4 * 16 + b / 16)) % 16 * 16 + LetterValue(Letter(b % 16 * 4 + c / 64)) / 4 == b
    ensures LetterValue(Letter(b % 16 * 4 + c / 64)) % 4 * 64 + LetterValue(Letter(c % 64)) == c
  {
    LetterRoundTrip(a / 4);
    LetterRoundTrip(a % 4 * 16 + b / 16);
    LetterRoundTrip(b % 16 * 4 + c / 64);
    LetterRoundTrip(c % 64);
  }

  lemma GroupShape(a: Byte, b: Byte, c: Byte)
    ensures |Group(a, b, c)| == 4 && ':' !in Group(a, b, c)
  {
    LetterRoundTrip(a / 4);
    LetterRoundTrip(a % 4 * 16 + b / 16);
    LetterRoundTrip(b % 16 * 4 + c / 64);
    LetterRoundTrip(c % 64);
  }

  lemma ShortShape(b: seq<Byte>)
    requires |b| == 1 || |b| == 2
    ensures |Encode(b)| == 4 && ':' !in Encode(b)
  {
    LetterRoundTrip(b[0] / 4);
    LetterRoundTrip(b[0] % 4 * 16);
    if |b| == 2 {
      LetterRoundTrip(b[0] % 4 * 16 + b[1] / 16);
      LetterRoundTrip(b[1] % 16 * 4);
    }
  }

  /** The text is a whole number of groups of four, without ':'. */
  lemma {:induction false} EncodeShape(b: seq<Byte>)
    ensures |Encode(b)| % 4 == 0 && (Encode(b) == "" <==> b == []) && ':' !in Encode(b)
  {
    if |b| >= 3 {
      GroupShape(b[0], b[1], b[2]);
      EncodeShape(b[3..]);
    } else if b != [] {
      ShortShape(b);
    }
  }

  lemma OneByte(a: Byte)
    ensures Decode(Encode([a])) == [a]
  {
    LetterRoundTrip(a / 4);
    LetterRoundTrip(a % 4 * 16);
    assert Decode(Encode([a])) == [a / 4 * 4 + a % 4 * 16 / 16];
  }

  lemma TwoBytes(a: Byte, b: Byte)
    ensures Decode(Encode([a, b])) == [a, b]
  {
    DecodeGroup(a, b, 0);
    LetterRoundTrip(b % 16 * 4);
    var e := Encode([a, b]);
    assert e == [Letter(a / 4), Letter(a % 4 * 16 + b / 16), Letter(b % 16 * 4), '='];
    assert Letter(b % 16 * 4 + 0 / 64) == Letter(b % 16 * 4);
  }

  lemma GroupDecodes(a: Byte, b: Byte, c: Byte, rest: string)
    ensures Decode(Group(a, b, c) + rest) == [a, b, c] + Decode(rest)
  {
    DecodeGroup(a, b, c);
    LetterRoundTrip(b % 16 * 4 + c / 64);
    LetterRoundTrip(c % 64);
    assert (Group(a, b, c) + rest)[4..] == rest;
  }

  /** Decoding gives the bytes back. */
  lemma {:induction false} Base64RoundTrip(b: seq<Byte>)
    ensures Decode(Encode(b)) == b
  {
    if |b| == 1 {
      OneByte(b[0]);
      assert b == [b[0]];
    } else if |b| == 2 {
      TwoBytes(b[0], b[1]);
      assert b == [b[0], b[1]];
    } else if |b| >= 3 {
      GroupDecodes(b[0], b[1], b[2], Encode(b[3..]));
      Base64RoundTrip(b[3..]);
      assert b == [b[0], b[1], b[2]] + b[3..];
    }
  }

  lemma KnownGroups()
    ensures Group(0x66, 0x6F, 0x6F) == "Zm9v" && Group(0x62, 0x61, 0x72) == "YmFy"
  {
  }

  /** Section 10 of RFC 4648 gives "foobar", "fo" and "f"; the last two letters of the alphabet are those
      of section 5. */
  lemma KnownEncodings()
    ensures Encode([0x66, 0x6F, 0x6F, 0x62, 0x61, 0x72]) == "Zm9vYmFy"
    ensures Encode([0x66, 0x6F]) == "Zm8=" && Encode([0x66]) == "Zg=="
    ensures Encode([0xFB, 0xFF]) == "-_8="
  {
    KnownGroups();
    var foobar: seq<Byte> := [0x66, 0x6F, 0x6F, 0x62, 0x61, 0x72];
    var bar: seq<Byte> := [0x62, 0x61, 0x72];
    assert foobar[3..] == bar && bar[3..] == [];
    assert Encode(bar) == "YmFy" + "";
    assert Encode(foobar) == "Zm9v" + "YmFy";
  }

  /** UTF-8 of an ASCII letter, of a letter with an accent, of a euro sign and of a character beyond the
      basic plane. */
  lemma KnownCharacters()
    ensures Utf8('A') == [0x41] && Utf8(0xE9 as char) == [0xC3, 0xA9]
    ensures Utf8(0x20AC as char) == [0xE2, 0x82, 0xAC] && Utf8(0x1F600 as char) == [0xF0, 0x9F, 0x98, 0x80]
  {
  }

  /** _encode_fragment: an absent keyword and an empty one are written "empty". */
  function Fragment(keyword: Option<string>): string {
    var e := Encode(Utf8All(if keyword.Some? then keyword.value else ""));
    if e == "" then "empty" else e
  }

  function Text(keyword: Option<string>): string { if keyword.Some? then keyword.value else "" }

  lemma EncodeInjective(s: string, t: string)
    requires Encode(Utf8All(s)) == Encode(Utf8All(t))
    ensures s == t
  {
    Base64RoundTrip(Utf8All(s));
    Base64RoundTrip(Utf8All(t));
    Utf8Injective(s, t);
  }

  lemma FragmentMeans(j: Option<string>, k: Option<string>)
    ensures Fragment(j) == Fragment(k) <==> Text(j) == Text(k)
    ensures ':' !in Fragment(j)
  {
    EncodeShape(Utf8All(Text(j)));
    EncodeShape(Utf8All(Text(k)));
    if Fragment(j) == Fragment(k) {
      assert |"empty"| == 5;
      EncodeInjective(Text(j), Text(k));
    }
  }

  // ---- decimal numbers -------------------------------------------------------------------------------------

  function Digits(n: nat): string {
    if n < 10 then [(n + 48) as char] else Digits(n / 10) + [(n % 10 + 48) as char]
  }

  function Value(s: string): int {
    if s == "" then 0 else Value(s[..|s| - 1]) * 10 + (s[|s| - 1] as int - 48)
  }

  lemma {:induction false} DigitsRoundTrip(n: nat)
    ensures Value(Digits(n)) == n && |Digits(n)| > 0
    ensures forall i :: 0 <= i < |Digits(n)| ==> '0' <= Digits(n)[i] <= '9'
  {
    if n >= 10 {
      DigitsRoundTrip(n / 10);
      assert Digits(n)[..|Digits(n)| - 1] == Digits(n / 10);
    } else {
      assert Digits(n)[..0] == "";
    }
  }

  function Decimal(n: int): string { if n < 0 then "-" + Digits(-n) else Digits(n) }

  lemma DecimalInjective(n: int, m: int)
    ensures Decimal(n) == Decimal(m) ==> n == m
    ensures ':' !in Decimal(n)
  {
    DigitsRoundTrip(if n < 0 then -n else n);
    DigitsRoundTrip(if m < 0 then -m else m);
    if Decimal(n) == Decimal(m) {
      assert Decimal(n)[0] == Decimal(m)[0];
      if n < 0 {
        assert Decimal(n)[1..] == Digits(-n) && Decimal(m)[1..] == Digits(-m);
      }
    }
  }

  // ---- fields joined by ':' -----------------------------------------------------------------------------------

  function Join(fields: seq<string>): string {
    if fields == [] then ""
    else if |fields| == 1 then fields[0]
    else fields[0] + ":" + Join(fields[1..])
  }

  predicate Plain(fields: seq<string>) {
    forall i :: 0 <= i < |fields| ==> ':' !in fields[i]
  }

  lemma FirstFieldEnds(a: string, b: string, s: string, t: string)
    requires ':' !in a && ':' !in b && a + ":" + s == b + ":" + t
    ensures a == b && s == t
  {
    var x := a + ":" + s;
    assert x[|a|] == ':' && x[|b|] == ':';
    assert forall i :: 0 <= i < |a| ==> x[i] == a[i];
    assert forall i :: 0 <= i < |b| ==> x[i] == b[i];
    assert |a| == |b|;
    assert a == x[..|a|] && b == x[..|b|];
    assert s == x[|a| + 1..] && t == x[|b| + 1..];
  }

  lemma JoinHasColon(f: seq<string>)
    requires |f| >= 2
    ensures ':' in Join(f)
  {
    assert Join(f)[|f[0]|] == ':';
  }

  lemma {:induction false} JoinInjective(f: seq<string>, g: seq<string>)
    requires f != [] && g != [] && Plain(f) && Plain(g) && Join(f) == Join(g)
    ensures f == g
  {
    if |f| == 1 && |g| == 1 {
      assert f == [f[0]] && g == [g[0]];
    } else if |f| == 1 {
      JoinHasColon(g);
    } else if |g| == 1 {
      JoinHasColon(f);
    } else {
      FirstFieldEnds(f[0], g[0], Join(f[1..]), Join(g[1..]));
      JoinInjective(f[1..], g[1..]);
      assert f == [f[0]] + f[1..] && g == [g[0]] + g[1..];
    }
  }

  // ---- keys -----------------------------------------------------------------------------------------------------

  datatype Query =
    | ListProducts(page: int, size: int, keyword: Option<string>, offSale: bool)
    | ProductDetail(product: int, internal: bool)

  /** The query as the database sees it: no keyword and an empty one filter nothing. */
  function Normal(q: Query): Query {
    if q.ListProducts? then q.(keyword := Some(Text(q.keyword))) else q
  }

  function Fields(version: nat, q: Query): seq<string> {
    ["product-service", "catalog", "v" + Decimal(version)] +
    match q
    case ListProducts(page, size, keyword, offSale) =>
      ["list", "page=" + Decimal(page), "size=" + Decimal(size), "keyword=" + Fragment(keyword),
       "include_off_sale=" + if offSale then "1" else "0"]
    case ProductDetail(product, internal) =>
      [if internal then "internal" else "public", "product", Decimal(product)]
  }

  /** make_product_list_cache_key and make_product_detail_cache_key. */
  function Key(version: nat, q: Query): string { Join(Fields(version, q)) }

  lemma JoinMore(a: string, rest: seq<string>)
    requires rest != []
    ensures Join([a] + rest) == a + ":" + Join(rest)
  {
    assert ([a] + rest)[1..] == rest;
  }

  /** The part of the key after the version. */
  function QueryText(q: Query): string {
    match q
    case ListProducts(page, size, keyword, offSale) =>
      "list" + ":" + (("page=" + Decimal(page)) + ":" + (("size=" + Decimal(size)) + ":" +
        (("keyword=" + Fragment(keyword)) + ":" + ("include_off_sale=" + if offSale then "1" else "0"))))
    case ProductDetail(product, internal) =>
      (if internal then "internal" else "public") + ":" + ("product" + ":" + Decimal(product))
  }

  lemma JoinThree(a: string, b: string, c: string)
    ensures Join([a, b, c]) == a + ":" + (b + ":" + c)
  {
    JoinMore(b, [c]);
    JoinMore(a, [b, c]);
    assert [b] + [c] == [b, c] && [a] + [b, c] == [a, b, c];
  }

  lemma JoinFive(a: string, b: string, c: string, d: string, e: string)
    ensures Join([a, b, c, d, e]) == a + ":" + (b + ":" + (c + ":" + (d + ":" + e)))
  {
    JoinThree(c, d, e);
    JoinMore(b, [c, d, e]);
    JoinMore(a, [b, c, d, e]);
    assert [b] + [c, d, e] == [b, c, d, e] && [a] + [b, c, d, e] == [a, b, c, d, e];
  }

  lemma QueryTextJoins(version: nat, q: Query)
    ensures |Fields(version, q)| > 3 && Join(Fields(version, q)[3..]) == QueryText(q)
  {
    var f := Fields(version, q);
    match q
    case ListProducts(page, size, keyword, offSale) =>
      var off := "include_off_sale=" + if offSale then "1" else "0";
      JoinFive("list", "page=" + Decimal(page), "size=" + Decimal(size), "keyword=" + Fragment(keyword), off);
      assert f[3..] == ["list", "page=" + Decimal(page), "size=" + Decimal(size), "keyword=" + Fragment(keyword), off];
    case ProductDetail(product, internal) =>
      var scope := if internal then "internal" else "public";
      JoinThree(scope, "product", Decimal(product));
      assert f[3..] == [scope, "product", Decimal(product)];
  }

  /** The keys as the service formats them. */
  lemma KeyText(version: nat, q: Query)
    ensures Key(version, q)
      == "product-service" + ":" + ("catalog" + ":" + (("v" + Decimal(version)) + ":" + QueryText(q)))
  {
    var f := Fields(version, q);
    var rest := f[3..];
    QueryTextJoins(version, q);
    JoinMore("v" + Decimal(version), rest);
    JoinMore("catalog", ["v" + Decimal(version)] + rest);
    JoinMore("product-service", ["catalog"] + (["v" + Decimal(version)] + rest));
    assert f == ["product-service"] + (["catalog"] + (["v" + Decimal(version)] + rest));
  }

  lemma FieldsPlain(version: nat, q: Query)
    ensures Plain(Fields(version, q))
  {
    DecimalInjective(version, 0);
    if q.ListProducts? {
      DecimalInjective(q.page, 0);
      DecimalInjective(q.size, 0);
      FragmentMeans(q.keyword, None);
    } else {
      DecimalInjective(q.product, 0);
    }
  }

  lemma Prefixed(p: string, a: string, b: string)
    ensures p + a == p + b ==> a == b
  {
    if p + a == p + b {
      assert a == (p + a)[|p|..] && b == (p + b)[|p|..];
    }
  }

  lemma SameFieldsSameQuery(v: nat, w: nat, q: Query, r: Query)
    requires Fields(v, q) == Fields(w, r)
    ensures v == w && Normal(q) == Normal(r)
  {
    var f, g := Fields(v, q), Fields(w, r);
    assert f[2] == g[2] && f[3] == g[3];
    Prefixed("v", Decimal(v), Decimal(w));
    DecimalInjective(v, w);
    if q.ListProducts? {
      assert f[4] == g[4] && f[5] == g[5] && f[6] == g[6] && f[7] == g[7];
      Prefixed("page=", Decimal(q.page), Decimal(r.page));
      Prefixed("size=", Decimal(q.size), Decimal(r.size));
      Prefixed("keyword=", Fragment(q.keyword), Fragment(r.keyword));
      Prefixed("include_off_sale=", if q.offSale then "1" else "0", if r.offSale then "1" else "0");
      DecimalInjective(q.page, r.page);
      DecimalInjective(q.size, r.size);
      FragmentMeans(q.keyword, r.keyword);
    } else {
      assert f[5] == g[5];
      DecimalInjective(q.product, r.product);
    }
  }

  /** Two requests share a key exactly when they read the same version and mean the same query. */
  lemma KeysIdentify(v: nat, w: nat, q: Query, r: Query)
    ensures Key(v, q) == Key(w, r) <==> v == w && Normal(q) == Normal(r)
  {
    if Key(v, q) == Key(w, r) {
      FieldsPlain(v, q);
      FieldsPlain(w, r);
      JoinInjective(Fields(v, q), Fields(w, r));
      SameFieldsSameQuery(v, w, q, r);
    }
    if v == w && Normal(q) == Normal(r) && q.ListProducts? {
      FragmentMeans(q.keyword, r.keyword);
    }
  }
}
