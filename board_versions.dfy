/**
 * Board-version lookup (src/util/board-versions.js): the BoardVersion table
 * and getBoardVersion. The argument is modelled by its string form, the
 * `serialNumber.toString()` that both paths of the function start from; a
 * numeric serial enters as IntToString(10, n).
 */
module BoardVersions {
  import opened Wrappers
  import opened Strings
  import opened NumText

  /** The BoardVersion object: serial-number prefix to board name. */
  const BoardVersion: map<string, string> := map[
    "680" := "PCA10031",
    "681" := "PCA10028",
    "682" := "PCA10040",
    "683" := "PCA10056",
    "684" := "PCA10068",
    "685" := "PCA10100",
    "686" := "PCA10064",
    "9600" := "PCA10090",
    "9601" := "PCA10095",
    "9602" := "PCA10115"
  ]

  /** `s.split('_')[0]`: the text before the first underscore. */
  function BeforeUnderscore(s: string): string {
    s[..IndexOf(s, '_')]
  }

  /** `s.substring(0, n)` for n >= 0. */
  function Substring0(s: string, n: nat): string {
    if n <= |s| then s[..n] else s
  }

  /**
   * The white space parseInt skips before the number: the ECMAScript
   * WhiteSpace and LineTerminator code points.
   */
  predicate IsJsWhiteSpace(c: char) {
    var u := c as int;
    if u <= 0x20 then u == 0x20 || 0x09 <= u <= 0x0D
    else if u < 0xA0 then false
    else
      u == 0xA0 || u == 0x1680 || (0x2000 <= u <= 0x200A) || u == 0x2028 || u == 0x2029
      || u == 0x202F || u == 0x205F || u == 0x3000 || u == 0xFEFF
  }

  /** The text after the white space that `s` starts with. */
  function SkipWhiteSpace(s: string): (r: string)
    ensures |r| <= |s| && r == s[|s| - |r|..]
    ensures forall i :: 0 <= i < |s| - |r| ==> IsJsWhiteSpace(s[i])
    ensures r == [] || !IsJsWhiteSpace(r[0])
  {
    if s != [] && IsJsWhiteSpace(s[0]) then SkipWhiteSpace(s[1..]) else s
  }

  lemma NoWhiteSpaceToSkip(s: string)
    ensures s != [] && !IsJsWhiteSpace(s[0]) ==> SkipWhiteSpace(s) == s
  {
  }

  /** Length of the run of decimal digits that `s` starts with. */
  function DigitRun(s: string): (n: nat)
    ensures n <= |s|
    ensures forall i :: 0 <= i < n ==> IsDigit(s[i])
    ensures n < |s| ==> !IsDigit(s[n])
  {
    if s != [] && IsDigit(s[0]) then 1 + DigitRun(s[1..]) else 0
  }

  /** The number parseInt returns: NaN, or an integer (-0 is folded into 0). */
  datatype Parsed = NaN | Int(value: int)

  /** `parseInt(s, 10)`: white space, an optional sign, then the longest run of digits. */
  function ParseInt10(s: string): (p: Parsed)
    ensures s != [] && IsDigit(s[0]) ==> p.Int? && p.value >= 0
    ensures s == [] || (!IsJsWhiteSpace(s[0]) && !IsDigit(s[0]) && s[0] != '-' && s[0] != '+') ==> p == NaN
  {
    NoWhiteSpaceToSkip(s);
    var t := SkipWhiteSpace(s);
    var negative := t != [] && t[0] == '-';
    var u := if t != [] && (t[0] == '-' || t[0] == '+') then t[1..] else t;
    var n := DigitRun(u);
    if n == 0 then NaN
    else
      var magnitude: int := DecimalValue(u[..n]);
      Int(if negative then -magnitude else magnitude)
  }

  /** `Number.prototype.toString()` of a parsed value. */
  function ParsedToString(p: Parsed): string {
    match p
    case NaN => "NaN"
    case Int(v) => IntToString(10, v)
  }

  /** The decimal text that the non-"PCA" path looks up: `parseInt(s, 10).toString()`. */
  function CanonicalText(serialNumber: string): string {
    ParsedToString(ParseInt10(serialNumber))
  }

  /**
   * `BoardVersion[sn.substring(0, 4)] || BoardVersion[sn.substring(0, 3)]`;
   * every board name is a non-empty string, so `||` falls back exactly when
   * the first lookup is undefined.
   */
  function LookupPrefix(sn: string): (r: Option<string>)
    ensures r.None? || r.value in BoardVersion.Values
    ensures Substring0(sn, 4) in BoardVersion ==> r == Some(BoardVersion[Substring0(sn, 4)])
    ensures Substring0(sn, 4) !in BoardVersion && Substring0(sn, 3) in BoardVersion ==>
              r == Some(BoardVersion[Substring0(sn, 3)])
    ensures r.Some? ==> Substring0(sn, 4) in BoardVersion || Substring0(sn, 3) in BoardVersion
  {
    if Substring0(sn, 4) in BoardVersion then Some(BoardVersion[Substring0(sn, 4)])
    else if Substring0(sn, 3) in BoardVersion then Some(BoardVersion[Substring0(sn, 3)])
    else None
  }

  /**
   * `getBoardVersion(serialNumber)`, with None for undefined. A "PCA" serial
   * gives its text before the first underscore; any other is parsed as a
   * decimal integer whose canonical text is looked up by prefix.
   */
  function GetBoardVersion(serialNumber: string): (r: Option<string>)
    ensures StartsWith(serialNumber, "PCA") ==>
              && r.Some?
              && StartsWith(serialNumber, r.value)
              && Excludes(r.value, '_')
              && (|r.value| < |serialNumber| ==> serialNumber[|r.value|] == '_')
    ensures !StartsWith(serialNumber, "PCA") ==> r == LookupPrefix(CanonicalText(serialNumber))
    ensures !StartsWith(serialNumber, "PCA") ==> r.None? || r.value in BoardVersion.Values
  {
    if StartsWith(serialNumber, "PCA") then
      Some(BeforeUnderscore(serialNumber))
    else
      LookupPrefix(CanonicalText(serialNumber))
  }

  /** A string of digits without a leading zero is its own canonical text. */
  lemma CanonicalOfDigits(s: string)
    requires IsAllDigits(s) && s[0] != '0'
    ensures CanonicalText(s) == s
  {
    ParseIntOfDigitStart(s);
    DigitRunOfDigits(s);
    assert s[..|s|] == s;
    DecimalDigitsIn(s);
    CanonicalDigits(10, s);
  }

  lemma {:induction false} DigitRunOfDigits(s: string)
    requires IsAllDigits(s)
    ensures DigitRun(s) == |s|
  {
    if |s| > 1 {
      DigitRunOfDigits(s[1..]);
    } else {
      assert s[1..] == [];
    }
  }

  /** How parseInt reads text that starts with a digit: its leading run of digits. */
  lemma ParseIntOfDigitStart(s: string)
    requires |s| > 0 && IsDigit(s[0])
    ensures DigitRun(s) > 0
    ensures ParseInt10(s) == Int(DecimalValue(s[..DigitRun(s)]))
  {
    assert !IsJsWhiteSpace(s[0]);
    assert SkipWhiteSpace(s) == s;
  }

  /** A zero in front of text starting with a digit lengthens its digit run by one. */
  lemma DigitRunAfterZero(s: string)
    requires |s| > 0 && IsDigit(s[0])
    ensures DigitRun("0" + s) == DigitRun(s) + 1
    ensures ("0" + s)[..DigitRun(s) + 1] == "0" + s[..DigitRun(s)]
  {
    assert ("0" + s)[1..] == s;
    PrefixOfCons('0', s, DigitRun(s));
  }

  /** parseInt ignores a leading zero in front of a digit. */
  lemma ParseIntLeadingZero(s: string)
    requires |s| > 0 && IsDigit(s[0])
    ensures ParseInt10("0" + s) == ParseInt10(s)
  {
    DigitRunAfterZero(s);
    ParseIntOfDigitStart(s);
    ParseIntOfDigitStart("0" + s);
    DecimalLeadingZero(s[..DigitRun(s)]);
  }

  lemma DigitStartIsNotPca(s: string)
    requires |s| > 0 && IsDigit(s[0])
    ensures !StartsWith(s, "PCA")
  {
    if |s| >= 3 {
      assert s[..3][0] == s[0];
    }
  }

  /** A leading zero before a digit does not change the result. */
  lemma LeadingZeroIgnored(s: string)
    requires |s| > 0 && IsDigit(s[0])
    ensures GetBoardVersion("0" + s) == GetBoardVersion(s)
  {
    DigitStartIsNotPca(s);
    DigitStartIsNotPca("0" + s);
    ParseIntLeadingZero(s);
  }

  /** Text that starts with neither white space, a sign, a digit nor "PCA" parses to NaN. */
  lemma NotANumberGivesUndefined(s: string)
    requires !StartsWith(s, "PCA")
    requires |s| > 0 && !IsJsWhiteSpace(s[0]) && !IsDigit(s[0]) && s[0] != '-' && s[0] != '+'
    ensures GetBoardVersion(s) == None
  {
    assert SkipWhiteSpace(s) == s;
    assert ParseInt10(s) == NaN;
    assert Substring0("NaN", 4) == "NaN" && Substring0("NaN", 3) == "NaN";
  }

  /** Every board name starts with "PCA" and holds no underscore. */
  lemma BoardNamesArePcaNames(name: string)
    requires name in BoardVersion.Values
    ensures StartsWith(name, "PCA") && Excludes(name, '_')
  {
  }

  /** Looking up the board version of a board version gives it back. */
  lemma {:induction false} GetBoardVersionIdempotent(serialNumber: string)
    requires GetBoardVersion(serialNumber).Some?
    ensures var name := GetBoardVersion(serialNumber).value;
            GetBoardVersion(name) == Some(name)
  {
    var name := GetBoardVersion(serialNumber).value;
    if StartsWith(serialNumber, "PCA") {
      assert name[..3] == serialNumber[..3];
    } else {
      BoardNamesArePcaNames(name);
    }
    assert StartsWith(name, "PCA") && Excludes(name, '_');
    assert IndexOf(name, '_') == |name|;
    assert name[..|name|] == name;
  }

  /** A serial of digits without a leading zero is looked up by its own prefixes. */
  lemma DigitSerialLookup(s: string)
    requires IsAllDigits(s) && s[0] != '0'
    ensures GetBoardVersion(s) == LookupPrefix(s)
  {
    DigitStartIsNotPca(s);
    CanonicalOfDigits(s);
  }

  /** Board-version test: '68000000' is a PCA10031, found by its three-character prefix. */
  lemma TestCase680(s: string)
    ensures s == "68000000" ==> GetBoardVersion(s) == Some("PCA10031")
  {
    if s == "68000000" {
      ThreeCharacterCase(s, "6800", "680");
    }
  }

  /** Board-version test: '68100000' is a PCA10028, found by its three-character prefix. */
  lemma TestCase681(s: string)
    ensures s == "68100000" ==> GetBoardVersion(s) == Some("PCA10028")
  {
    if s == "68100000" {
      ThreeCharacterCase(s, "6810", "681");
    }
  }

  /** Board-version test: '68200000' is a PCA10040, found by its three-character prefix. */
  lemma TestCase682(s: string)
    ensures s == "68200000" ==> GetBoardVersion(s) == Some("PCA10040")
  {
    if s == "68200000" {
      ThreeCharacterCase(s, "6820", "682");
    }
  }

  /** Board-version test: '68300000' is a PCA10056, found by its three-character prefix. */
  lemma TestCase683(s: string)
    ensures s == "68300000" ==> GetBoardVersion(s) == Some("PCA10056")
  {
    if s == "68300000" {
      ThreeCharacterCase(s, "6830", "683");
    }
  }

  /** Board-version test: '68400000' is a PCA10068, found by its three-character prefix. */
  lemma TestCase684(s: string)
    ensures s == "68400000" ==> GetBoardVersion(s) == Some("PCA10068")
  {
    if s == "68400000" {
      ThreeCharacterCase(s, "6840", "684");
    }
  }

  /** Board-version test: '68600000' is a PCA10064, found by its three-character prefix. */
  lemma TestCase686(s: string)
    ensures s == "68600000" ==> GetBoardVersion(s) == Some("PCA10064")
  {
    if s == "68600000" {
      ThreeCharacterCase(s, "6860", "686");
    }
  }

  /** Board-version test: '96000000' is a PCA10090; the four-character prefix wins over "960". */
  lemma TestCase9600(s: string)
    ensures s == "96000000" ==> GetBoardVersion(s) == Some("PCA10090")
  {
    if s == "96000000" {
      DigitSerialLookup(s);
      assert s[..4] == "9600";
    }
  }

  /** Board-version test: neither prefix of '12300000' is known, so it has no board version. */
  lemma TestCase123(s: string)
    ensures s == "12300000" ==> GetBoardVersion(s) == None
  {
    if s == "12300000" {
      UnknownPrefixCase(s, "1230", "123");
    }
  }

  /** A digit serial found by its three-character prefix. */
  lemma ThreeCharacterCase(s: string, four: string, three: string)
    requires IsAllDigits(s) && s[0] != '0'
    requires |s| >= 4 && s[..4] == four && s[..3] == three
    requires four !in BoardVersion && three in BoardVersion
    ensures GetBoardVersion(s) == Some(BoardVersion[three])
  {
    DigitSerialLookup(s);
  }

  /** A digit serial that neither prefix finds. */
  lemma UnknownPrefixCase(s: string, four: string, three: string)
    requires IsAllDigits(s) && s[0] != '0'
    requires |s| >= 4 && s[..4] == four && s[..3] == three
    requires four !in BoardVersion && three !in BoardVersion
    ensures GetBoardVersion(s) == None
  {
    DigitSerialLookup(s);
  }
}
