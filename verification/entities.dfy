/** The entity resolver: maps a character-reference token such as "&amp;"
    or "&#169;" to at most one byte of the output character set, by a
    numeric path for ASCII code points and a linear scan of a fixed table
    of (name, output byte, code point) triples. */
module Entities {

  import opened Bytes
  import opened Wrappers

  /** One row of the table: the entity's name with its '&' and ';', the byte
      the output character set uses for it, and its Unicode code point. */
  datatype Entity = Entity(name: string, output: byte, codePoint: nat)

  /** The largest value strtoul returns; unsigned long is 32 bits wide on
      the target, and larger numbers saturate to it. */
  const ULONG_MAX: nat := 0xFFFF_FFFF

  /** The table, in the order in which it is scanned: rows 16 * b to
      16 * b + 15 form BLOCK_b. */
  const ENTITIES: seq<Entity> :=
    BLOCK_0 + BLOCK_1 + BLOCK_2 + BLOCK_3 + BLOCK_4 + BLOCK_5 + BLOCK_6 +
    BLOCK_7 + BLOCK_8 + BLOCK_9 + BLOCK_10 + BLOCK_11 + BLOCK_12 + BLOCK_13

  const BLOCK_0: seq<Entity> := [
    Entity("&Tab;", 0x9, 0x9),
    Entity("&NewLine;", 0x13, 0x10),
    Entity("&excl;", 0x21, 0x21),
    Entity("&quot;", 0x22, 0x22),
    Entity("&QUOT;", 0x22, 0x22),
    Entity("&num;", 0x23, 0x23),
    Entity("&dollar;", 0x24, 0x24),
    Entity("&percnt;", 0x25, 0x25),
    Entity("&amp;", 0x26, 0x26),
    Entity("&apos;", 0x27, 0x27),
    Entity("&lpar;", 0x28, 0x28),
    Entity("&rpar;", 0x29, 0x29),
    Entity("&ast;", 0x2a, 0x2a),
    Entity("&midast;", 0x2a, 0x2a),
    Entity("&plus;", 0x2b, 0x2b),
    Entity("&comma;", 0x2c, 0x2c)
  ]

  const BLOCK_1: seq<Entity> := [
    Entity("&period;", 0x2e, 0x2e),
    Entity("&sol;", 0x2f, 0x2f),
    Entity("&colon;", 0x3a, 0x3a),
    Entity("&semi;", 0x3b, 0x3b),
    Entity("&lt;", 0x3c, 0x3c),
    Entity("&LT;", 0x3c, 0x3c),
    Entity("&equals;", 0x3d, 0x3d),
    Entity("&gt;", 0x3e, 0x3e),
    Entity("&GT;", 0x3e, 0x3e),
    Entity("&quest;", 0x3f, 0x3f),
    Entity("&commat;", 0x40, 0x40),
    Entity("&lsqb;", 0x5b, 0x5b),
    Entity("&lbrack;", 0x5b, 0x5b),
    Entity("&bsol;", 0x5c, 0x5c),
    Entity("&rsqb;", 0x5d, 0x5d),
    Entity("&rbrack;", 0x5d, 0x5d)
  ]

  const BLOCK_2: seq<Entity> := [
    Entity("&Hat;", 0x5e, 0x5e),
    Entity("&lowbar;", 0x5f, 0x5f),
    Entity("&grave;", 0x60, 0x60),
    Entity("&DiacriticalGrave;", 0x60, 0x60),
    Entity("&lcub;", 0x7b, 0x7b),
    Entity("&lbrace;", 0x7b, 0x7b),
    Entity("&verbar;", 0x7c, 0x7c),
    Entity("&vert;", 0x7c, 0x7c),
    Entity("&VerticalLine;", 0x7c, 0x7c),
    Entity("&rcub;", 0x7d, 0x7d),
    Entity("&rbrace;", 0x7d, 0x7d),
    Entity("&nbsp;", 0xca, 0xa0),
    Entity("&NonBreakingSpace;", 0xca, 0xa0),
    Entity("&iexcl;", 0xc1, 0xa1),
    Entity("&cent;", 0xa2, 0xa2),
    Entity("&pound;", 0xa3, 0xa3)
  ]

  const BLOCK_3: seq<Entity> := [
    Entity("&curren;", 0xdb, 0xa4),
    Entity("&yen;", 0xb4, 0xa5),
    Entity("&sect;", 0xa4, 0xa7),
    Entity("&Dot;", 0xac, 0xa8),
    Entity("&die;", 0xac, 0xa8),
    Entity("&DoubleDot;", 0xac, 0xa8),
    Entity("&uml;", 0xac, 0xa8),
    Entity("&copy;", 0xa9, 0xa9),
    Entity("&COPY;", 0xa9, 0xa9),
    Entity("&ordf;", 0xbb, 0xaa),
    Entity("&laquo;", 0xc7, 0xab),
    Entity("&not;", 0xc2, 0xac),
    Entity("&reg;", 0xa8, 0xae),
    Entity("&circleR;", 0xa8, 0xae),
    Entity("&REG;", 0xa8, 0xae),
    Entity("&macr;", 0xf8, 0xaf)
  ]

  const BLOCK_4: seq<Entity> := [
    Entity("&OverBar;", 0xf8, 0xaf),
    Entity("&strns;", 0xf8, 0xaf),
    Entity("&deg;", 0xa1, 0xb0),
    Entity("&plusmn;", 0xb1, 0xb1),
    Entity("&pm;", 0xb1, 0xb1),
    Entity("&PlusMinus;", 0xb1, 0xb1),
    Entity("&acute;", 0xab, 0xb4),
    Entity("&DiacriticalAcute;", 0xab, 0xb4),
    Entity("&micro;", 0xb5, 0xb5),
    Entity("&para;", 0xa6, 0xb6),
    Entity("&middot;", 0xe1, 0xb7),
    Entity("&centerdot;", 0xe1, 0xb7),
    Entity("&CenterDot;", 0xe1, 0xb7),
    Entity("&cedil;", 0xfc, 0xb8),
    Entity("&Cedilla;", 0xfc, 0xb8),
    Entity("&ordm;", 0xbc, 0xba)
  ]

  const BLOCK_5: seq<Entity> := [
    Entity("&raquo;", 0xc8, 0xbb),
    Entity("&iquest;", 0xc0, 0xbf),
    Entity("&Agrave;", 0xcb, 0xc0),
    Entity("&Aacute;", 0xe7, 0xc1),
    Entity("&Acirc;", 0xe5, 0xc2),
    Entity("&Atilde;", 0xcc, 0xc3),
    Entity("&Auml;", 0x80, 0xc4),
    Entity("&Aring;", 0x81, 0xc5),
    Entity("&AElig;", 0xae, 0xc6),
    Entity("&Ccedil;", 0x82, 0xc7),
    Entity("&Egrave;", 0xe9, 0xc8),
    Entity("&Eacute;", 0x83, 0xc9),
    Entity("&Ecirc;", 0xe6, 0xca),
    Entity("&Euml;", 0xe8, 0xcb),
    Entity("&Igrave;", 0xed, 0xcc),
    Entity("&Iacute;", 0xea, 0xcd)
  ]

  const BLOCK_6: seq<Entity> := [
    Entity("&Icirc;", 0xeb, 0xce),
    Entity("&Iuml;", 0xec, 0xcf),
    Entity("&Ntilde;", 0x84, 0xd1),
    Entity("&Ograve;", 0xf1, 0xd2),
    Entity("&Oacute;", 0xee, 0xd3),
    Entity("&Ocirc;", 0xef, 0xd4),
    Entity("&Otilde;", 0xcd, 0xd5),
    Entity("&Ouml;", 0x85, 0xd6),
    Entity("&Oslash;", 0xaf, 0xd8),
    Entity("&Ugrave;", 0xf4, 0xd9),
    Entity("&Uacute;", 0xf2, 0xda),
    Entity("&Ucirc;", 0xf3, 0xdb),
    Entity("&Uuml;", 0x86, 0xdc),
    Entity("&szlig;", 0xa7, 0xdf),
    Entity("&agrave;", 0x88, 0xe0),
    Entity("&aacute;", 0x87, 0xe1)
  ]

  const BLOCK_7: seq<Entity> := [
    Entity("&acirc;", 0x89, 0xe2),
    Entity("&atilde;", 0x8b, 0xe3),
    Entity("&auml;", 0x8a, 0xe4),
    Entity("&aring;", 0x8c, 0xe5),
    Entity("&aelig;", 0xbe, 0xe6),
    Entity("&ccedil;", 0x8d, 0xe7),
    Entity("&egrave;", 0x8f, 0xe8),
    Entity("&eacute;", 0x8e, 0xe9),
    Entity("&ecirc;", 0x90, 0xea),
    Entity("&euml;", 0x91, 0xeb),
    Entity("&igrave;", 0x93, 0xec),
    Entity("&iacute;", 0x92, 0xed),
    Entity("&icirc;", 0x94, 0xee),
    Entity("&iuml;", 0x95, 0xef),
    Entity("&ntilde;", 0x96, 0xf1),
    Entity("&ograve;", 0x98, 0xf2)
  ]

  const BLOCK_8: seq<Entity> := [
    Entity("&oacute;", 0x97, 0xf3),
    Entity("&ocirc;", 0x99, 0xf4),
    Entity("&otilde;", 0x9b, 0xf5),
    Entity("&ouml;", 0x9a, 0xf6),
    Entity("&divide;", 0xd6, 0xf7),
    Entity("&div;", 0xd6, 0xf7),
    Entity("&oslash;", 0xbf, 0xf8),
    Entity("&ugrave;", 0x9d, 0xf9),
    Entity("&uacute;", 0x9c, 0xfa),
    Entity("&ucirc;", 0x9e, 0xfb),
    Entity("&uuml;", 0x9f, 0xfc),
    Entity("&yuml;", 0xd8, 0xff),
    Entity("&dagger;", 0xa0, 0x2020),
    Entity("&bull;", 0xa5, 0x2022),
    Entity("&bullet;", 0xa5, 0x2022),
    Entity("&trade;", 0xaa, 0x2122)
  ]

  const BLOCK_9: seq<Entity> := [
    Entity("&TRADE;", 0xaa, 0x2122),
    Entity("&ne;", 0xad, 0x2260),
    Entity("&NotEqual;", 0xad, 0x2260),
    Entity("&infin;", 0xb0, 0x221e),
    Entity("&le;", 0xb2, 0x2264),
    Entity("&leq;", 0xb2, 0x2264),
    Entity("&LessEqual;", 0xb2, 0x2264),
    Entity("&ge;", 0xb3, 0x2265),
    Entity("&geq;", 0xb3, 0x2265),
    Entity("&GreaterEqual;", 0xb3, 0x2265),
    Entity("&part;", 0xb6, 0x2202),
    Entity("&PartialD;", 0xb6, 0x2202),
    Entity("&sum;", 0xb7, 0x2211),
    Entity("&Sum;", 0xb7, 0x2211),
    Entity("&prod;", 0xb8, 0x220f),
    Entity("&Product;", 0xb8, 0x220f)
  ]

  const BLOCK_10: seq<Entity> := [
    Entity("&pi;", 0xb9, 0x3c0),
    Entity("&int;", 0xba, 0x222b),
    Entity("&Integral;", 0xba, 0x222b),
    Entity("&Omega;", 0xbd, 0x3a9),
    Entity("&radic;", 0xc3, 0x221a),
    Entity("&Sqrt;", 0xc3, 0x221a),
    Entity("&fnof;", 0xc4, 0x192),
    Entity("&asymp;", 0xc5, 0x2248),
    Entity("&ap;", 0xc5, 0x2248),
    Entity("&TildeTilde;", 0xc5, 0x2248),
    Entity("&approx;", 0xc5, 0x2248),
    Entity("&thkap;", 0xc5, 0x2248),
    Entity("&thickapprox;", 0xc5, 0x2248),
    Entity("&Delta;", 0xc6, 0x394),
    Entity("&hellip;", 0xc9, 0x2026),
    Entity("&mldr;", 0xc9, 0x2026)
  ]

  const BLOCK_11: seq<Entity> := [
    Entity("&OElig;", 0xce, 0x152),
    Entity("&oelig;", 0xcf, 0x153),
    Entity("&ndash;", 0xd0, 0x2013),
    Entity("&mdash;", 0xd1, 0x2014),
    Entity("&ldquo;", 0xd2, 0x201c),
    Entity("&OpenCurlyDoubleQuote;", 0xd2, 0x201c),
    Entity("&rdquo;", 0xd3, 0x201d),
    Entity("&rdquor;", 0xd3, 0x201d),
    Entity("&CloseCurlyDoubleQuote;", 0xd3, 0x201d),
    Entity("&lsquo;", 0xd4, 0x2018),
    Entity("&OpenCurlyQuote;", 0xd4, 0x2018),
    Entity("&rsquo;", 0xd5, 0x2019),
    Entity("&rsquor;", 0xd5, 0x2019),
    Entity("&CloseCurlyQuote;", 0xd5, 0x2019),
    Entity("&loz;", 0xd7, 0x25ca),
    Entity("&lozenge;", 0xd7, 0x25ca)
  ]

  const BLOCK_12: seq<Entity> := [
    Entity("&Yuml;", 0xd9, 0x178),
    Entity("&frasl;", 0xda, 0x2044),
    Entity("&lsaquo;", 0xdc, 0x2039),
    Entity("&rsaquo;", 0xdd, 0x203a),
    Entity("&filig;", 0xde, 0xfb01),
    Entity("&fllig;", 0xdf, 0xfb02),
    Entity("&Dagger;", 0xe0, 0x2021),
    Entity("&ddagger;", 0xe0, 0x2021),
    Entity("&lsquor;", 0xe2, 0x201a),
    Entity("&sbquo;", 0xe2, 0x201a),
    Entity("&ldquor;", 0xe3, 0x201e),
    Entity("&bdquo;", 0xe3, 0x201e),
    Entity("&permil;", 0xe4, 0x2030),
    Entity("", 0xf0, 0xf8ff),
    Entity("&imath;", 0xf5, 0x131),
    Entity("&inodot;", 0xf5, 0x131)
  ]

  const BLOCK_13: seq<Entity> := [
    Entity("&circ;", 0xf6, 0x2c6),
    Entity("&tilde;", 0xf7, 0x2dc),
    Entity("&DiacriticalTilde;", 0xf7, 0x2dc),
    Entity("&breve;", 0xf9, 0x2d8),
    Entity("&Breve;", 0xf9, 0x2d8),
    Entity("&dot;", 0xfa, 0x2d9),
    Entity("&DiacriticalDot;", 0xfa, 0x2d9),
    Entity("&ring;", 0xfb, 0x2da),
    Entity("&dblac;", 0xfd, 0x2dd),
    Entity("&DiacriticalDoubleAcute;", 0xfd, 0x2dd),
    Entity("&ogon;", 0xfe, 0x2db),
    Entity("&caron;", 0xff, 0x2c7),
    Entity("&Hacek;", 0xff, 0x2c7)
  ]

  // ---------------------------------------------------------------------
  // The two C library calls the resolver relies on

  /** strtoul(s, &end, base) on a run of digits: the value of the longest
      prefix of digits (0 when there is none), saturated at ULONG_MAX, and
      how many bytes it consumed (end - s). */
  function StrToUL(s: seq<byte>, base: nat): (r: (nat, nat))
    ensures r.1 <= |s| && r.0 <= ULONG_MAX
    ensures AllDigits(s[..r.1], base) && (r.1 < |s| ==> !IsDigit(s[r.1], base))
    ensures r.1 == 0 ==> r.0 == 0
  {
    var k := DigitRun(s, base);
    (Saturated(DigitsValue(s[..k], base)), k)
  }

  /** An unsigned long holds at most ULONG_MAX; strtoul returns ULONG_MAX
      for anything larger. */
  function Saturated(v: nat): nat {
    if v > ULONG_MAX then ULONG_MAX else v
  }

  /** strtoul on digits d followed by the end or a non-digit consumes
      exactly d and returns its value, saturated at ULONG_MAX. */
  lemma StrToULReads(d: seq<byte>, rest: seq<byte>, base: nat)
    requires AllDigits(d, base)
    requires rest == [] || !IsDigit(rest[0], base)
    ensures StrToUL(d + rest, base) == (Saturated(DigitsValue(d, base)), |d|)
  {
    DigitRunOfDigits(d, rest, base);
    assert (d + rest)[..|d|] == d;
  }

  /** strncmp(name, text, |text|) == 0 from position i on, where name is a
      NUL-terminated string and text the |text| bytes of the token: the
      comparison stops at the first difference or at the terminator. */
  function StrnEqFrom(name: string, text: seq<byte>, i: nat): bool
    decreases |text| - i
  {
    if i >= |text| then true
    else
      var c := if i < |name| then name[i] as int else 0;
      if c != text[i] then false
      else if c == 0 then true
      else StrnEqFrom(name, text, i + 1)
  }

  predicate StrnEq(name: string, text: seq<byte>) {
    StrnEqFrom(name, text, 0)
  }

  predicate NoNul(text: seq<byte>) {
    forall i :: 0 <= i < |text| ==> text[i] != NUL
  }

  /** Every byte of the token from position i on is matched by the name. */
  predicate NameCovers(name: string, text: seq<byte>, i: nat) {
    i >= |text| || (|text| <= |name| && forall j :: i <= j < |text| ==> name[j] as int == text[j])
  }

  /** For a token without NUL bytes and a name without NUL characters,
      the strncmp test from position i on holds exactly when every later
      byte of the token is matched by the name. */
  lemma {:induction false} StrnEqFromCovers(name: string, text: seq<byte>, i: nat)
    requires NoNul(text) && i <= |text|
    requires forall j :: 0 <= j < |name| ==> name[j] as int != 0
    ensures StrnEqFrom(name, text, i) <==> NameCovers(name, text, i)
    decreases |text| - i
  {
    if i < |text| {
      StrnEqFromCovers(name, text, i + 1);
      if i < |name| && name[i] as int == text[i] {
        assert StrnEqFrom(name, text, i) == StrnEqFrom(name, text, i + 1);
        if NameCovers(name, text, i + 1) {
          if i + 1 < |text| {
            forall j | i <= j < |text| ensures name[j] as int == text[j] {
              if j > i {
                assert i + 1 <= j < |text|;
              }
            }
          }
        }
      } else {
        assert !StrnEqFrom(name, text, i);
        assert !(i < |name| && name[i] as int == text[i]);
      }
    }
  }

  /** A token spelled exactly like the name from position i on passes the
      test from there. */
  lemma {:induction false} StrnEqFromSpelled(name: string, text: seq<byte>, i: nat)
    requires |text| <= |name|
    requires forall j :: i <= j < |text| ==> name[j] as int == text[j]
    ensures StrnEqFrom(name, text, i)
    decreases |text| - i
  {
    if i < |text| {
      StrnEqFromSpelled(name, text, i + 1);
    }
  }

  /** Hence the whole test holds exactly when the token is a prefix of the
      name: strncmp bounded by the token's size does not see whether the
      name goes on. */
  lemma StrnEqIsPrefix(name: string, text: seq<byte>)
    requires NoNul(text)
    requires forall j :: 0 <= j < |name| ==> name[j] as int != 0
    ensures StrnEq(name, text) <==>
              |text| <= |name| && forall j :: 0 <= j < |text| ==> name[j] as int == text[j]
  {
    StrnEqFromCovers(name, text, 0);
  }

  /** For a token without NUL bytes, a passing test from a position i
      inside the token means the name is at least as long as the token and
      matches every byte of it from i on. */
  lemma {:induction false} StrnEqFromAgrees(name: string, text: seq<byte>, i: nat)
    requires NoNul(text)
    ensures StrnEqFrom(name, text, i) && i < |text| ==>
              |text| <= |name| && forall j :: i <= j < |text| ==> name[j] as int == text[j]
    decreases |text| - i
  {
    if i < |text| && StrnEqFrom(name, text, i) {
      assert text[i] != NUL;
      assert StrnEqFrom(name, text, i + 1);
      StrnEqFromAgrees(name, text, i + 1);
    }
  }

  // ---------------------------------------------------------------------
  // The resolver

  /** True when row e is the one the scan stops at for a token t whose
      numeric path produced code. */
  predicate Matches(t: seq<byte>, code: nat, e: Entity) {
    code == e.codePoint || StrnEq(e.name, t)
  }

  /** The scan of a table from row i: the byte of the first row that
      matches, or nothing. */
  function Lookup(table: seq<Entity>, t: seq<byte>, code: nat, i: nat): Option<byte>
    requires i <= |table|
    decreases |table| - i
  {
    if i == |table| then None
    else if Matches(t, code, table[i]) then Some(table[i].output)
    else Lookup(table, t, code, i + 1)
  }

  /** The scan finds something exactly when some row from i on matches, and
      what it finds is the byte of the first such row. */
  lemma {:induction false} LookupFirstMatch(table: seq<Entity>, t: seq<byte>, code: nat, i: nat)
    requires i <= |table|
    ensures var r := Lookup(table, t, code, i);
      && (r.Some? <==> exists j :: i <= j < |table| && Matches(t, code, table[j]))
      && (r.Some? ==> exists j :: i <= j < |table| && Matches(t, code, table[j]) &&
                        r.value == table[j].output &&
                        forall k :: i <= k < j ==> !Matches(t, code, table[k]))
    decreases |table| - i
  {
    if i < |table| && !Matches(t, code, table[i]) {
      LookupFirstMatch(table, t, code, i + 1);
      var r := Lookup(table, t, code, i);
      if r.Some? {
        var j :| i + 1 <= j < |table| && Matches(t, code, table[j]) &&
                 r.value == table[j].output &&
                 forall k :: i + 1 <= k < j ==> !Matches(t, code, table[k]);
        assert forall k :: i <= k < j ==> !Matches(t, code, table[k]);
      }
    }
  }

  /** The code point of a token "&#...;" (base 10) or "&x...;" (base 16):
      the number strtoul reads after the second byte if it stops right at
      the closing ';', else 0. */
  function NumericCode(t: seq<byte>, base: nat): (code: nat)
    requires |t| >= 2
    ensures code <= ULONG_MAX
  {
    var (v, k) := StrToUL(t[2..], base);
    if 2 + k == |t| - 1 then v else 0
  }

  /** The code of a token that ends in a non-digit: the saturated value of
      the bytes between the second and the last when they are all digits,
      and 0 when any of them is not. */
  lemma NumericCodeValue(t: seq<byte>, base: nat)
    requires |t| >= 3 && !IsDigit(t[|t| - 1], base)
    ensures AllDigits(t[2..|t| - 1], base) ==>
              NumericCode(t, base) == Saturated(DigitsValue(t[2..|t| - 1], base))
    ensures !AllDigits(t[2..|t| - 1], base) ==> NumericCode(t, base) == 0
  {
    var mid := t[2..|t| - 1];
    if AllDigits(mid, base) {
      assert t[2..] == mid + [t[|t| - 1]];
      StrToULReads(mid, [t[|t| - 1]], base);
    } else {
      var i :| 0 <= i < |mid| && !IsDigit(mid[i], base);
      assert t[2..][i] == mid[i];
    }
  }

  predicate WellFramed(t: seq<byte>) {
    |t| >= 4 && t[0] == AMP && t[|t| - 1] == SEMI
  }

  /** printEntity: the byte written for token t, if any. */
  function Resolve(t: seq<byte>): (r: Option<byte>)
    ensures r.Some? ==> WellFramed(t)
  {
    if !WellFramed(t) then None
    else
      var decimal := if t[1] == HASH then NumericCode(t, 10) else 0;
      if 0 < decimal < 128 then Some(decimal)
      else
        var code := if t[1] == LOWER_X then NumericCode(t, 16) else decimal;
        if 0 < code < 128 then Some(code)
        else Lookup(ENTITIES, t, code, 0)
  }

  // ---------------------------------------------------------------------
  // What every row of the table satisfies

  /** A row's code point lies between 9 and 0xFB02, and its name is empty
      or starts with '&' followed by something other than '#'. */
  predicate RowOk(e: Entity) {
    && 9 <= e.codePoint <= 0xFB02
    && (e.name == "" || (|e.name| >= 2 && e.name[0] == '&' && e.name[1] != '#'))
  }

  predicate RowsOk(table: seq<Entity>) {
    forall k :: 0 <= k < |table| ==> RowOk(table[k])
  }

  // The rows are checked block by block.

  lemma Block0RowsOk()
    ensures RowsOk(BLOCK_0)
  {
  }

  lemma Block1RowsOk()
    ensures RowsOk(BLOCK_1)
  {
  }

  lemma Block2RowsOk()
    ensures RowsOk(BLOCK_2)
  {
  }

  lemma Block3RowsOk()
    ensures RowsOk(BLOCK_3)
  {
  }

  lemma Block4RowsOk()
    ensures RowsOk(BLOCK_4)
  {
  }

  lemma Block5RowsOk()
    ensures RowsOk(BLOCK_5)
  {
  }

  lemma Block6RowsOk()
    ensures RowsOk(BLOCK_6)
  {
  }

  lemma Block7RowsOk()
    ensures RowsOk(BLOCK_7)
  {
  }

  lemma Block8RowsOk()
    ensures RowsOk(BLOCK_8)
  {
  }

  lemma Block9RowsOk()
    ensures RowsOk(BLOCK_9)
  {
  }

  lemma Block10RowsOk()
    ensures RowsOk(BLOCK_10)
  {
  }

  lemma Block11RowsOk()
    ensures RowsOk(BLOCK_11)
  {
  }

  lemma Block12RowsOk()
    ensures RowsOk(BLOCK_12)
  {
  }

  lemma Block13RowsOk()
    ensures RowsOk(BLOCK_13)
  {
  }

  lemma TableRowsOk()
    ensures |ENTITIES| == 221
    ensures RowsOk(ENTITIES)
  {
    Block0RowsOk(); Block1RowsOk(); Block2RowsOk(); Block3RowsOk(); Block4RowsOk(); Block5RowsOk(); Block6RowsOk(); Block7RowsOk(); Block8RowsOk(); Block9RowsOk(); Block10RowsOk(); Block11RowsOk(); Block12RowsOk(); Block13RowsOk();
  }

  // ---------------------------------------------------------------------
  // Scanning the table

  /** Scanning a concatenation of two tables scans the first, then, when
      nothing matched there, the second. */
  lemma {:induction false} LookupAppend(a: seq<Entity>, b: seq<Entity>, t: seq<byte>, code: nat, i: nat)
    requires i <= |a|
    ensures Lookup(a + b, t, code, i) ==
              if Lookup(a, t, code, i).Some? then Lookup(a, t, code, i) else Lookup(b, t, code, 0)
    decreases |a| - i
  {
    if i < |a| {
      assert (a + b)[i] == a[i];
      LookupAppend(a, b, t, code, i + 1);
    } else {
      LookupShift(a, b, t, code, 0);
    }
  }

  lemma {:induction false} LookupShift(a: seq<Entity>, b: seq<Entity>, t: seq<byte>, code: nat, j: nat)
    requires j <= |b|
    ensures Lookup(a + b, t, code, |a| + j) == Lookup(b, t, code, j)
    decreases |b| - j
  {
    if j < |b| {
      assert (a + b)[|a| + j] == b[j];
      LookupShift(a, b, t, code, j + 1);
    }
  }

  /** The scan passes over a row whose code point differs and whose name
      differs from the token at some position j of the token. */
  lemma MissRow(table: seq<Entity>, t: seq<byte>, code: nat, i: nat, j: nat)
    requires i < |table| && NoNul(t) && j < |t| && table[i].codePoint != code
    requires j >= |table[i].name| || table[i].name[j] as int != t[j]
    ensures Lookup(table, t, code, i) == Lookup(table, t, code, i + 1)
  {
    StrnEqFromAgrees(table[i].name, t, 0);
  }

  /** The scan of a table by code point alone: the byte of the first row
      with that code point. */
  function FirstWithCodePoint(table: seq<Entity>, code: nat, i: nat): (r: Option<byte>)
    requires i <= |table|
    ensures r.Some? <==> exists j :: i <= j < |table| && table[j].codePoint == code
    decreases |table| - i
  {
    if i == |table| then None
    else if table[i].codePoint == code then Some(table[i].output)
    else FirstWithCodePoint(table, code, i + 1)
  }

  /** The scan of a table by name alone: the byte of the first row whose
      name the token is a strncmp-prefix of. */
  function FirstWithName(table: seq<Entity>, t: seq<byte>, i: nat): (r: Option<byte>)
    requires i <= |table|
    ensures r.Some? <==> exists j :: i <= j < |table| && StrnEq(table[j].name, t)
    decreases |table| - i
  {
    if i == |table| then None
    else if StrnEq(table[i].name, t) then Some(table[i].output)
    else FirstWithName(table, t, i + 1)
  }

  /** With code 0, which no valid row has, the scan matches by name only. */
  lemma {:induction false} NameOnlyLookup(table: seq<Entity>, t: seq<byte>, i: nat)
    requires RowsOk(table) && i <= |table|
    ensures Lookup(table, t, 0, i) == FirstWithName(table, t, i)
    decreases |table| - i
  {
    if i < |table| {
      assert RowOk(table[i]);
      NameOnlyLookup(table, t, i + 1);
    }
  }

  /** A token that starts with "&#" is a prefix of no name of the table. */
  lemma HashTokenMatchesNoName(e: Entity, t: seq<byte>)
    requires RowOk(e) && |t| >= 2 && t[0] == AMP && t[1] == HASH
    ensures !StrnEq(e.name, t)
  {
    if e.name != "" {
      assert StrnEqFrom(e.name, t, 0) == StrnEqFrom(e.name, t, 1);
    }
  }

  /** So a token that starts with "&#" is looked up by code point alone. */
  lemma {:induction false} HashTokenLookup(table: seq<Entity>, t: seq<byte>, code: nat, i: nat)
    requires RowsOk(table) && i <= |table|
    requires |t| >= 2 && t[0] == AMP && t[1] == HASH
    ensures Lookup(table, t, code, i) == FirstWithCodePoint(table, code, i)
    decreases |table| - i
  {
    if i < |table| {
      HashTokenMatchesNoName(table[i], t);
      HashTokenLookup(table, t, code, i + 1);
    }
  }

  /** No row has a code point outside 9..0xFB02. */
  lemma UnknownCodePoint(table: seq<Entity>, code: nat)
    requires RowsOk(table)
    requires code < 9 || code > 0xFB02
    ensures FirstWithCodePoint(table, code, 0) == None
  {
  }

  // ---------------------------------------------------------------------
  // What the resolver does with each kind of token

  /** A token that starts with "&#" takes the decimal path: a code from 1
      to 127 is the byte itself, any other code is looked up by code point
      alone. */
  lemma HashReference(t: seq<byte>)
    requires WellFramed(t) && t[1] == HASH
    ensures var code := NumericCode(t, 10);
      && (0 < code < 128 ==> Resolve(t) == Some(code))
      && (!(0 < code < 128) ==> Resolve(t) == FirstWithCodePoint(ENTITIES, code, 0))
  {
    TableRowsOk();
    HashTokenLookup(ENTITIES, t, NumericCode(t, 10), 0);
  }

  /** strtoul reads back the number of a decimal reference "&#N;",
      saturated at ULONG_MAX. */
  lemma DecimalCode(n: nat)
    ensures var t := [AMP, HASH] + Decimal(n) + [SEMI];
      && WellFramed(t) && t[1] == HASH
      && NumericCode(t, 10) == if n > ULONG_MAX then ULONG_MAX else n
  {
    var d := Decimal(n);
    var t := [AMP, HASH] + d + [SEMI];
    assert t[2..] == d + [SEMI];
    DecimalRun(n, [SEMI]);
    assert t[2..][..|d|] == d;
    DecimalRoundTrip(n);
  }

  /** A decimal reference "&#N;": N from 1 to 127 gives the byte N itself;
      any other N is looked up by code point (saturated as strtoul does),
      and N = 0 or N beyond 0xFB02 gives nothing. */
  lemma DecimalReference(n: nat)
    ensures 1 <= n < 128 ==> Resolve([AMP, HASH] + Decimal(n) + [SEMI]) == Some(n)
    ensures n == 0 || n >= 128 ==>
              Resolve([AMP, HASH] + Decimal(n) + [SEMI]) ==
              FirstWithCodePoint(ENTITIES, if n > ULONG_MAX then ULONG_MAX else n, 0)
    ensures n == 0 || n > 0xFB02 ==> Resolve([AMP, HASH] + Decimal(n) + [SEMI]) == None
  {
    var t := [AMP, HASH] + Decimal(n) + [SEMI];
    DecimalCode(n);
    HashReference(t);
    if n == 0 || n > 0xFB02 {
      TableRowsOk();
      UnknownCodePoint(ENTITIES, if n > ULONG_MAX then ULONG_MAX else n);
    }
  }

  /** A hexadecimal reference "&#x...;" is never resolved: the decimal
      branch reads no digit after the '#', and the hexadecimal branch is
      taken only when the second byte is 'x'. */
  lemma HexReferenceUnresolved(h: seq<byte>)
    ensures Resolve([AMP, HASH, LOWER_X] + h + [SEMI]) == None
  {
    var t := [AMP, HASH, LOWER_X] + h + [SEMI];
    assert t[2..][0] == LOWER_X;
    assert NumericCode(t, 10) == 0;
    TableRowsOk();
    HashTokenLookup(ENTITIES, t, 0, 0);
    UnknownCodePoint(ENTITIES, 0);
  }

  /** A token that starts with "&x" takes the hexadecimal path: a code from
      1 to 127 is the byte itself; any other code (0 when the digits do not
      end at the ';') goes to the scan, which matches by that code point or
      by name. */
  lemma HexReference(t: seq<byte>)
    requires WellFramed(t) && t[1] == LOWER_X
    ensures var mid := t[2..|t| - 1];
      var code := if AllDigits(mid, 16) then Saturated(DigitsValue(mid, 16)) else 0;
      && (0 < code < 128 ==> Resolve(t) == Some(code))
      && (!(0 < code < 128) ==>
            && (Resolve(t).Some? <==> exists j :: 0 <= j < |ENTITIES| && Matches(t, code, ENTITIES[j]))
            && (Resolve(t).Some? ==>
                  exists j :: 0 <= j < |ENTITIES| && Matches(t, code, ENTITIES[j]) &&
                    Resolve(t).value == ENTITIES[j].output &&
                    forall k :: 0 <= k < j ==> !Matches(t, code, ENTITIES[k])))
  {
    NumericCodeValue(t, 16);
    LookupFirstMatch(ENTITIES, t, NumericCode(t, 16), 0);
  }

  /** A named reference (neither '#' nor 'x' after the '&') resolves to the
      byte of the first row whose name it is a prefix of, in the sense of
      strncmp bounded by the token's size, or to nothing. */
  lemma NamedReference(t: seq<byte>)
    requires WellFramed(t) && t[1] != HASH && t[1] != LOWER_X
    ensures Resolve(t).Some? <==>
              exists j :: 0 <= j < |ENTITIES| && StrnEq(ENTITIES[j].name, t)
    ensures Resolve(t).Some? ==>
              exists j :: 0 <= j < |ENTITIES| && StrnEq(ENTITIES[j].name, t) &&
                Resolve(t).value == ENTITIES[j].output &&
                forall k :: 0 <= k < j ==> !StrnEq(ENTITIES[k].name, t)
  {
    TableRowsOk();
    LookupFirstMatch(ENTITIES, t, 0, 0);
    assert forall j :: 0 <= j < |ENTITIES| ==> (Matches(t, 0, ENTITIES[j]) <==> StrnEq(ENTITIES[j].name, t));
  }

  // ---------------------------------------------------------------------
  // Examples

  /** A named reference goes to the scan with code 0. */
  lemma NamedScan(t: seq<byte>)
    requires WellFramed(t) && t[1] != HASH && t[1] != LOWER_X
    ensures Resolve(t) == Lookup(ENTITIES, t, 0, 0)
  {
  }

  /** So a named reference is looked up by name alone: code 0 is no row's
      code point. */
  lemma NamedLookup(t: seq<byte>)
    requires WellFramed(t) && t[1] != HASH && t[1] != LOWER_X
    ensures Resolve(t) == FirstWithName(ENTITIES, t, 0)
  {
    TableRowsOk();
    NameOnlyLookup(ENTITIES, t, 0);
  }

  /** The scan of the first four blocks is the scan of each in turn. */
  lemma FirstBlocksLookup(t: seq<byte>, code: nat)
    ensures Lookup(BLOCK_0 + BLOCK_1 + BLOCK_2 + BLOCK_3, t, code, 0) ==
      if Lookup(BLOCK_0, t, code, 0).Some? then Lookup(BLOCK_0, t, code, 0)
      else if Lookup(BLOCK_1, t, code, 0).Some? then Lookup(BLOCK_1, t, code, 0)
      else if Lookup(BLOCK_2, t, code, 0).Some? then Lookup(BLOCK_2, t, code, 0)
      else Lookup(BLOCK_3, t, code, 0)
  {
    LookupAppend(BLOCK_0, BLOCK_1, t, code, 0);
    LookupAppend(BLOCK_0 + BLOCK_1, BLOCK_2, t, code, 0);
    LookupAppend(BLOCK_0 + BLOCK_1 + BLOCK_2, BLOCK_3, t, code, 0);
  }

  /** Once the first four blocks yield a row, the rest of the table is
      never reached. */
  lemma FoundInFirstBlocks(t: seq<byte>, code: nat)
    requires Lookup(BLOCK_0 + BLOCK_1 + BLOCK_2 + BLOCK_3, t, code, 0).Some?
    ensures Lookup(ENTITIES, t, code, 0) == Lookup(BLOCK_0 + BLOCK_1 + BLOCK_2 + BLOCK_3, t, code, 0)
  {
    LookupAppend(BLOCK_0 + BLOCK_1 + BLOCK_2 + BLOCK_3, BLOCK_4, t, code, 0);
    LookupAppend(BLOCK_0 + BLOCK_1 + BLOCK_2 + BLOCK_3 + BLOCK_4, BLOCK_5, t, code, 0);
    LookupAppend(BLOCK_0 + BLOCK_1 + BLOCK_2 + BLOCK_3 + BLOCK_4 + BLOCK_5, BLOCK_6, t, code, 0);
    LookupAppend(BLOCK_0 + BLOCK_1 + BLOCK_2 + BLOCK_3 + BLOCK_4 + BLOCK_5 + BLOCK_6, BLOCK_7, t, code, 0);
    LookupAppend(BLOCK_0 + BLOCK_1 + BLOCK_2 + BLOCK_3 + BLOCK_4 + BLOCK_5 + BLOCK_6 + BLOCK_7, BLOCK_8, t, code, 0);
    LookupAppend(BLOCK_0 + BLOCK_1 + BLOCK_2 + BLOCK_3 + BLOCK_4 + BLOCK_5 + BLOCK_6 + BLOCK_7 + BLOCK_8, BLOCK_9, t, code, 0);
    LookupAppend(BLOCK_0 + BLOCK_1 + BLOCK_2 + BLOCK_3 + BLOCK_4 + BLOCK_5 + BLOCK_6 + BLOCK_7 + BLOCK_8 + BLOCK_9, BLOCK_10, t, code, 0);
    LookupAppend(BLOCK_0 + BLOCK_1 + BLOCK_2 + BLOCK_3 + BLOCK_4 + BLOCK_5 + BLOCK_6 + BLOCK_7 + BLOCK_8 + BLOCK_9 + BLOCK_10, BLOCK_11, t, code, 0);
    LookupAppend(BLOCK_0 + BLOCK_1 + BLOCK_2 + BLOCK_3 + BLOCK_4 + BLOCK_5 + BLOCK_6 + BLOCK_7 + BLOCK_8 + BLOCK_9 + BLOCK_10 + BLOCK_11, BLOCK_12, t, code, 0);
    LookupAppend(BLOCK_0 + BLOCK_1 + BLOCK_2 + BLOCK_3 + BLOCK_4 + BLOCK_5 + BLOCK_6 + BLOCK_7 + BLOCK_8 + BLOCK_9 + BLOCK_10 + BLOCK_11 + BLOCK_12, BLOCK_13, t, code, 0);
  }

  lemma ResolveDecimalA()
    ensures Resolve(Ascii("&#65;")) == Some(0x41)
  {
    assert Ascii("&#65;") == [AMP, HASH] + Decimal(65) + [SEMI];
    DecimalReference(65);
  }

  lemma ResolveHexA()
    ensures Resolve(Ascii("&#x41;")) == None
  {
    assert Ascii("&#x41;") == [AMP, HASH, LOWER_X] + Ascii("41") + [SEMI];
    HexReferenceUnresolved(Ascii("41"));
  }

  lemma AmpInBlock0(t: seq<byte>)
    requires t == [AMP, 0x61, 0x6d, 0x70, SEMI]
    ensures Lookup(BLOCK_0, t, 0, 0) == Some(0x26)
  {
    assert BLOCK_0[0] == Entity("&Tab;", 0x9, 0x9);
    assert BLOCK_0[1] == Entity("&NewLine;", 0x13, 0x10);
    assert BLOCK_0[2] == Entity("&excl;", 0x21, 0x21);
    assert BLOCK_0[3] == Entity("&quot;", 0x22, 0x22);
    assert BLOCK_0[4] == Entity("&QUOT;", 0x22, 0x22);
    assert BLOCK_0[5] == Entity("&num;", 0x23, 0x23);
    assert BLOCK_0[6] == Entity("&dollar;", 0x24, 0x24);
    assert BLOCK_0[7] == Entity("&percnt;", 0x25, 0x25);
    assert BLOCK_0[8] == Entity("&amp;", 0x26, 0x26);
    assert NoNul(t);
    MissRow(BLOCK_0, t, 0, 0, 1);
    MissRow(BLOCK_0, t, 0, 1, 1);
    MissRow(BLOCK_0, t, 0, 2, 1);
    MissRow(BLOCK_0, t, 0, 3, 1);
    MissRow(BLOCK_0, t, 0, 4, 1);
    MissRow(BLOCK_0, t, 0, 5, 1);
    MissRow(BLOCK_0, t, 0, 6, 1);
    MissRow(BLOCK_0, t, 0, 7, 1);
    StrnEqFromSpelled(BLOCK_0[8].name, t, 0);
  }

  lemma ResolveAmp(t: seq<byte>)
    requires t == Ascii("&amp;")
    ensures Resolve(t) == Some(0x26)
  {
    assert t == [AMP, 0x61, 0x6d, 0x70, SEMI];
    NamedScan(t);
    AmpInBlock0(t);
    FirstBlocksLookup(t, 0);
    FoundInFirstBlocks(t, 0);
  }

  lemma NewLineInBlock0(t: seq<byte>)
    requires t == [AMP, 0x4e, 0x65, 0x77, 0x4c, 0x69, 0x6e, 0x65, SEMI]
    ensures Lookup(BLOCK_0, t, 0, 0) == Some(0x13)
  {
    assert BLOCK_0[0] == Entity("&Tab;", 0x9, 0x9);
    assert BLOCK_0[1] == Entity("&NewLine;", 0x13, 0x10);
    assert NoNul(t);
    MissRow(BLOCK_0, t, 0, 0, 1);
    StrnEqFromSpelled(BLOCK_0[1].name, t, 0);
  }

  /** The table row for "&NewLine;" (the bytes of t) gives 0x13, not the
      line feed 0x0A. */
  lemma ResolveNewLine(t: seq<byte>)
    requires t == [AMP, 0x4e, 0x65, 0x77, 0x4c, 0x69, 0x6e, 0x65, SEMI]
    ensures Resolve(t) == Some(0x13)
  {
    NamedScan(t);
    NewLineInTable(t);
  }

  lemma NewLineInTable(t: seq<byte>)
    requires t == [AMP, 0x4e, 0x65, 0x77, 0x4c, 0x69, 0x6e, 0x65, SEMI]
    ensures Lookup(ENTITIES, t, 0, 0) == Some(0x13)
  {
    NewLineInBlock0(t);
    FirstBlocksLookup(t, 0);
    FoundInFirstBlocks(t, 0);
  }

  lemma CodePoint169Absent()
    ensures FirstWithCodePoint(BLOCK_0, 169, 0) == None
    ensures FirstWithCodePoint(BLOCK_1, 169, 0) == None
    ensures FirstWithCodePoint(BLOCK_2, 169, 0) == None
  {
    assert forall k :: 0 <= k < |BLOCK_0| ==> BLOCK_0[k].codePoint != 169;
    assert forall k :: 0 <= k < |BLOCK_1| ==> BLOCK_1[k].codePoint != 169;
    assert forall k :: 0 <= k < |BLOCK_2| ==> BLOCK_2[k].codePoint != 169;
  }

  lemma CodePoint169InBlock3()
    ensures FirstWithCodePoint(BLOCK_3, 169, 0) == Some(0xa9)
  {
    assert FirstWithCodePoint(BLOCK_3, 169, 0) == FirstWithCodePoint(BLOCK_3, 169, 1);
    assert FirstWithCodePoint(BLOCK_3, 169, 1) == FirstWithCodePoint(BLOCK_3, 169, 2);
    assert FirstWithCodePoint(BLOCK_3, 169, 2) == FirstWithCodePoint(BLOCK_3, 169, 3);
    assert FirstWithCodePoint(BLOCK_3, 169, 3) == FirstWithCodePoint(BLOCK_3, 169, 4);
    assert FirstWithCodePoint(BLOCK_3, 169, 4) == FirstWithCodePoint(BLOCK_3, 169, 5);
    assert FirstWithCodePoint(BLOCK_3, 169, 5) == FirstWithCodePoint(BLOCK_3, 169, 6);
    assert FirstWithCodePoint(BLOCK_3, 169, 6) == FirstWithCodePoint(BLOCK_3, 169, 7);
  }

  /** A decimal reference above 127 is looked up by code point: "&#169;"
      gives the same byte as "&copy;". */
  lemma ResolveCopyDecimal()
    ensures Resolve(Ascii("&#169;")) == Some(0xa9)
  {
    var t := Ascii("&#169;");
    var code := 169;
    assert t == [AMP, HASH] + Decimal(169) + [SEMI];
    DecimalReference(169);
    TableRowsOk();
    HashTokenLookup(ENTITIES, t, 169, 0);
    Block0RowsOk();
    Block1RowsOk();
    Block2RowsOk();
    Block3RowsOk();
    HashTokenLookup(BLOCK_0, t, 169, 0);
    HashTokenLookup(BLOCK_1, t, 169, 0);
    HashTokenLookup(BLOCK_2, t, 169, 0);
    HashTokenLookup(BLOCK_3, t, 169, 0);
    CodePoint169Absent();
    CodePoint169InBlock3();
    LookupAppend(BLOCK_0, BLOCK_1, t, code, 0);
    LookupAppend(BLOCK_0 + BLOCK_1, BLOCK_2, t, code, 0);
    LookupAppend(BLOCK_0 + BLOCK_1 + BLOCK_2, BLOCK_3, t, code, 0);
    FoundInFirstBlocks(t, code);
  }

  /** The scan for "&copy;" passes over the first 48 rows and the first
      seven of the next 16, eight rows at a time, each row differing from
      the token at its second, third or fourth byte. */

  lemma CopySkips0a(t: seq<byte>)
    requires t == [AMP, 0x63, 0x6f, 0x70, 0x79, SEMI]
    ensures Lookup(BLOCK_0, t, 0, 0) == Lookup(BLOCK_0, t, 0, 8)
  {
    assert BLOCK_0[0] == Entity("&Tab;", 0x9, 0x9);
    assert BLOCK_0[1] == Entity("&NewLine;", 0x13, 0x10);
    assert BLOCK_0[2] == Entity("&excl;", 0x21, 0x21);
    assert BLOCK_0[3] == Entity("&quot;", 0x22, 0x22);
    assert BLOCK_0[4] == Entity("&QUOT;", 0x22, 0x22);
    assert BLOCK_0[5] == Entity("&num;", 0x23, 0x23);
    assert BLOCK_0[6] == Entity("&dollar;", 0x24, 0x24);
    assert BLOCK_0[7] == Entity("&percnt;", 0x25, 0x25);
    assert NoNul(t);
    MissRow(BLOCK_0, t, 0, 0, 1);
    MissRow(BLOCK_0, t, 0, 1, 1);
    MissRow(BLOCK_0, t, 0, 2, 1);
    MissRow(BLOCK_0, t, 0, 3, 1);
    MissRow(BLOCK_0, t, 0, 4, 1);
    MissRow(BLOCK_0, t, 0, 5, 1);
    MissRow(BLOCK_0, t, 0, 6, 1);
    MissRow(BLOCK_0, t, 0, 7, 1);
  }

  lemma CopySkips0b(t: seq<byte>)
    requires t == [AMP, 0x63, 0x6f, 0x70, 0x79, SEMI]
    ensures Lookup(BLOCK_0, t, 0, 8) == Lookup(BLOCK_0, t, 0, 16)
  {
    assert BLOCK_0[8] == Entity("&amp;", 0x26, 0x26);
    assert BLOCK_0[9] == Entity("&apos;", 0x27, 0x27);
    assert BLOCK_0[10] == Entity("&lpar;", 0x28, 0x28);
    assert BLOCK_0[11] == Entity("&rpar;", 0x29, 0x29);
    assert BLOCK_0[12] == Entity("&ast;", 0x2a, 0x2a);
    assert BLOCK_0[13] == Entity("&midast;", 0x2a, 0x2a);
    assert BLOCK_0[14] == Entity("&plus;", 0x2b, 0x2b);
    assert BLOCK_0[15] == Entity("&comma;", 0x2c, 0x2c);
    assert NoNul(t);
    MissRow(BLOCK_0, t, 0, 8, 1);
    MissRow(BLOCK_0, t, 0, 9, 1);
    MissRow(BLOCK_0, t, 0, 10, 1);
    MissRow(BLOCK_0, t, 0, 11, 1);
    MissRow(BLOCK_0, t, 0, 12, 1);
    MissRow(BLOCK_0, t, 0, 13, 1);
    MissRow(BLOCK_0, t, 0, 14, 1);
    MissRow(BLOCK_0, t, 0, 15, 3);
  }

  lemma CopySkips1a(t: seq<byte>)
    requires t == [AMP, 0x63, 0x6f, 0x70, 0x79, SEMI]
    ensures Lookup(BLOCK_1, t, 0, 0) == Lookup(BLOCK_1, t, 0, 8)
  {
    assert BLOCK_1[0] == Entity("&period;", 0x2e, 0x2e);
    assert BLOCK_1[1] == Entity("&sol;", 0x2f, 0x2f);
    assert BLOCK_1[2] == Entity("&colon;", 0x3a, 0x3a);
    assert BLOCK_1[3] == Entity("&semi;", 0x3b, 0x3b);
    assert BLOCK_1[4] == Entity("&lt;", 0x3c, 0x3c);
    assert BLOCK_1[5] == Entity("&LT;", 0x3c, 0x3c);
    assert BLOCK_1[6] == Entity("&equals;", 0x3d, 0x3d);
    assert BLOCK_1[7] == Entity("&gt;", 0x3e, 0x3e);
    assert NoNul(t);
    MissRow(BLOCK_1, t, 0, 0, 1);
    MissRow(BLOCK_1, t, 0, 1, 1);
    MissRow(BLOCK_1, t, 0, 2, 3);
    MissRow(BLOCK_1, t, 0, 3, 1);
    MissRow(BLOCK_1, t, 0, 4, 1);
    MissRow(BLOCK_1, t, 0, 5, 1);
    MissRow(BLOCK_1, t, 0, 6, 1);
    MissRow(BLOCK_1, t, 0, 7, 1);
  }

  lemma CopySkips1b(t: seq<byte>)
    requires t == [AMP, 0x63, 0x6f, 0x70, 0x79, SEMI]
    ensures Lookup(BLOCK_1, t, 0, 8) == Lookup(BLOCK_1, t, 0, 16)
  {
    assert BLOCK_1[8] == Entity("&GT;", 0x3e, 0x3e);
    assert BLOCK_1[9] == Entity("&quest;", 0x3f, 0x3f);
    assert BLOCK_1[10] == Entity("&commat;", 0x40, 0x40);
    assert BLOCK_1[11] == Entity("&lsqb;", 0x5b, 0x5b);
    assert BLOCK_1[12] == Entity("&lbrack;", 0x5b, 0x5b);
    assert BLOCK_1[13] == Entity("&bsol;", 0x5c, 0x5c);
    assert BLOCK_1[14] == Entity("&rsqb;", 0x5d, 0x5d);
    assert BLOCK_1[15] == Entity("&rbrack;", 0x5d, 0x5d);
    assert NoNul(t);
    MissRow(BLOCK_1, t, 0, 8, 1);
    MissRow(BLOCK_1, t, 0, 9, 1);
    MissRow(BLOCK_1, t, 0, 10, 3);
    MissRow(BLOCK_1, t, 0, 11, 1);
    MissRow(BLOCK_1, t, 0, 12, 1);
    MissRow(BLOCK_1, t, 0, 13, 1);
    MissRow(BLOCK_1, t, 0, 14, 1);
    MissRow(BLOCK_1, t, 0, 15, 1);
  }

  lemma CopySkips2a(t: seq<byte>)
    requires t == [AMP, 0x63, 0x6f, 0x70, 0x79, SEMI]
    ensures Lookup(BLOCK_2, t, 0, 0) == Lookup(BLOCK_2, t, 0, 8)
  {
    assert BLOCK_2[0] == Entity("&Hat;", 0x5e, 0x5e);
    assert BLOCK_2[1] == Entity("&lowbar;", 0x5f, 0x5f);
    assert BLOCK_2[2] == Entity("&grave;", 0x60, 0x60);
    assert BLOCK_2[3] == Entity("&DiacriticalGrave;", 0x60, 0x60);
    assert BLOCK_2[4] == Entity("&lcub;", 0x7b, 0x7b);
    assert BLOCK_2[5] == Entity("&lbrace;", 0x7b, 0x7b);
    assert BLOCK_2[6] == Entity("&verbar;", 0x7c, 0x7c);
    assert BLOCK_2[7] == Entity("&vert;", 0x7c, 0x7c);
    assert NoNul(t);
    MissRow(BLOCK_2, t, 0, 0, 1);
    MissRow(BLOCK_2, t, 0, 1, 1);
    MissRow(BLOCK_2, t, 0, 2, 1);
    MissRow(BLOCK_2, t, 0, 3, 1);
    MissRow(BLOCK_2, t, 0, 4, 1);
    MissRow(BLOCK_2, t, 0, 5, 1);
    MissRow(BLOCK_2, t, 0, 6, 1);
    MissRow(BLOCK_2, t, 0, 7, 1);
  }

  lemma CopySkips2b(t: seq<byte>)
    requires t == [AMP, 0x63, 0x6f, 0x70, 0x79, SEMI]
    ensures Lookup(BLOCK_2, t, 0, 8) == Lookup(BLOCK_2, t, 0, 16)
  {
    assert BLOCK_2[8] == Entity("&VerticalLine;", 0x7c, 0x7c);
    assert BLOCK_2[9] == Entity("&rcub;", 0x7d, 0x7d);
    assert BLOCK_2[10] == Entity("&rbrace;", 0x7d, 0x7d);
    assert BLOCK_2[11] == Entity("&nbsp;", 0xca, 0xa0);
    assert BLOCK_2[12] == Entity("&NonBreakingSpace;", 0xca, 0xa0);
    assert BLOCK_2[13] == Entity("&iexcl;", 0xc1, 0xa1);
    assert BLOCK_2[14] == Entity("&cent;", 0xa2, 0xa2);
    assert BLOCK_2[15] == Entity("&pound;", 0xa3, 0xa3);
    assert NoNul(t);
    MissRow(BLOCK_2, t, 0, 8, 1);
    MissRow(BLOCK_2, t, 0, 9, 1);
    MissRow(BLOCK_2, t, 0, 10, 1);
    MissRow(BLOCK_2, t, 0, 11, 1);
    MissRow(BLOCK_2, t, 0, 12, 1);
    MissRow(BLOCK_2, t, 0, 13, 1);
    MissRow(BLOCK_2, t, 0, 14, 2);
    MissRow(BLOCK_2, t, 0, 15, 1);
  }

  lemma CopySkips3a(t: seq<byte>)
    requires t == [AMP, 0x63, 0x6f, 0x70, 0x79, SEMI]
    ensures Lookup(BLOCK_3, t, 0, 0) == Lookup(BLOCK_3, t, 0, 7)
  {
    assert BLOCK_3[0] == Entity("&curren;", 0xdb, 0xa4);
    assert BLOCK_3[1] == Entity("&yen;", 0xb4, 0xa5);
    assert BLOCK_3[2] == Entity("&sect;", 0xa4, 0xa7);
    assert BLOCK_3[3] == Entity("&Dot;", 0xac, 0xa8);
    assert BLOCK_3[4] == Entity("&die;", 0xac, 0xa8);
    assert BLOCK_3[5] == Entity("&DoubleDot;", 0xac, 0xa8);
    assert BLOCK_3[6] == Entity("&uml;", 0xac, 0xa8);
    assert NoNul(t);
    MissRow(BLOCK_3, t, 0, 0, 2);
    MissRow(BLOCK_3, t, 0, 1, 1);
    MissRow(BLOCK_3, t, 0, 2, 1);
    MissRow(BLOCK_3, t, 0, 3, 1);
    MissRow(BLOCK_3, t, 0, 4, 1);
    MissRow(BLOCK_3, t, 0, 5, 1);
    MissRow(BLOCK_3, t, 0, 6, 1);
  }

  lemma CopyMissesBlock0(t: seq<byte>)
    requires t == [AMP, 0x63, 0x6f, 0x70, 0x79, SEMI]
    ensures Lookup(BLOCK_0, t, 0, 0) == None
  {
    CopySkips0a(t);
    CopySkips0b(t);
  }

  lemma CopyMissesBlock1(t: seq<byte>)
    requires t == [AMP, 0x63, 0x6f, 0x70, 0x79, SEMI]
    ensures Lookup(BLOCK_1, t, 0, 0) == None
  {
    CopySkips1a(t);
    CopySkips1b(t);
  }

  lemma CopyMissesBlock2(t: seq<byte>)
    requires t == [AMP, 0x63, 0x6f, 0x70, 0x79, SEMI]
    ensures Lookup(BLOCK_2, t, 0, 0) == None
  {
    CopySkips2a(t);
    CopySkips2b(t);
  }

  /** The scan of rows 48-63 stops at "&copy;". */
  lemma CopyInBlock3(t: seq<byte>)
    requires t == [AMP, 0x63, 0x6f, 0x70, 0x79, SEMI]
    ensures Lookup(BLOCK_3, t, 0, 0) == Some(0xa9)
  {
    CopySkips3a(t);
    assert BLOCK_3[7] == Entity("&copy;", 0xa9, 0xa9);
    StrnEqFromSpelled(BLOCK_3[7].name, t, 0);
  }

  /** "&copy;" writes 0xA9. */
  lemma ResolveCopy(t: seq<byte>)
    requires t == Ascii("&copy;")
    ensures Resolve(t) == Some(0xa9)
  {
    assert t == [AMP, 0x63, 0x6f, 0x70, 0x79, SEMI];
    NamedScan(t);
    CopyMissesBlock0(t);
    CopyMissesBlock1(t);
    CopyMissesBlock2(t);
    CopyInBlock3(t);
    FirstBlocksLookup(t, 0);
    FoundInFirstBlocks(t, 0);
  }

  /** The hexadecimal branch fires when the byte after '&' is 'x': "&x41;"
      gives 'A'. */
  lemma ResolveBareHexA()
    ensures Resolve(Ascii("&x41;")) == Some(0x41)
  {
    var t := Ascii("&x41;");
    assert t == [AMP, LOWER_X, 52, 49, SEMI];
    assert t[2..|t| - 1] == [52, 49];
    assert DigitsValue([52, 49], 16) == 65;
    HexReference(t);
  }
}
