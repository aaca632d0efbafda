/**
 * The closed enumeration tables of the MapFile object model and the two ways the
 * library uses them.
 *
 * `convertStatus($s)` / `convertUnits($u)` called with a string from a parsed line:
 * a numeric argument is looked up as a KEY and yields the TOKEN ("1" gives "ON"), any
 * other argument is searched among the tokens, case-sensitively, and yields the CODE
 * ("ON" gives 1); a miss yields FALSE. Called with no argument, they index the table
 * with the object's current field value (`$statuses[$this->status]`), with PHP's
 * array-key rules: FALSE is key 0, and an index that is not in the table yields NULL,
 * which prints as the empty string.
 */
module Enums {
  import opened Wrappers
  import opened Text

  /**
   * What an enumerated field of a Map or Legend may hold: a numeric code (the normal
   * case), a token string (what a numeric argument to convert* returns) or FALSE
   * (what an unknown argument returns).
   */
  datatype EnumValue = Code(code: int) | Token(token: string) | NotFound

  /** A PHP array literal mapping codes to tokens, in declaration order. */
  type Table = seq<(int, string)>

  const STATUS_ON: int := 1
  const STATUS_OFF: int := 0

  const UNITS_INCHES: int := 0
  const UNITS_FEET: int := 1
  const UNITS_MILES: int := 2
  const UNITS_METERS: int := 3
  const UNITS_KILOMETERS: int := 4
  const UNITS_DD: int := 5
  const UNITS_PIXELS: int := 6
  const UNITS_NAUTICALMILES: int := 8

  const StatusTable: Table := [(STATUS_ON, "ON"), (STATUS_OFF, "OFF")]

  const UnitsTable: Table := [
    (UNITS_INCHES, "INCHES"),
    (UNITS_FEET, "FEET"),
    (UNITS_MILES, "MILES"),
    (UNITS_METERS, "METERS"),
    (UNITS_KILOMETERS, "KILOMETERS"),
    (UNITS_DD, "DD"),
    (UNITS_PIXELS, "PIXELS"),
    (UNITS_NAUTICALMILES, "NAUTICALMILES")
  ]

  /** Codes and tokens each occur at most once: the table is a bijection. */
  ghost predicate Bijective(t: Table)
  {
    forall i, j :: 0 <= i < j < |t| ==> t[i].0 != t[j].0 && t[i].1 != t[j].1
  }

  /** `isset($table[$code]) ? $table[$code] : FALSE` */
  function TokenOf(t: Table, code: int): (r: Option<string>)
    ensures r.Some? <==> exists i :: 0 <= i < |t| && t[i].0 == code
    ensures r.Some? ==> (code, r.value) in t
  {
    if t == [] then None
    else if t[0].0 == code then Some(t[0].1)
    else TokenOf(t[1..], code)
  }

  /** `array_search($token, $table)`: the first code whose token equals the argument exactly. */
  function CodeOf(t: Table, token: string): (r: Option<int>)
    ensures r.Some? <==> exists i :: 0 <= i < |t| && t[i].1 == token
    ensures r.Some? ==> (r.value, token) in t
  {
    if t == [] then None
    else if t[0].1 == token then Some(t[0].0)
    else CodeOf(t[1..], token)
  }

  /** `convert*($arg)` with a string argument taken from a parsed line. */
  function Convert(t: Table, arg: string): EnumValue
  {
    // A numeric argument that is not a canonical integer is a string key that the
    // table does not hold; no token of a table is numeric either, so the token search
    // that such an argument would skip misses as well: both give FALSE.
    match IntegerKey(arg)
    case Some(k) => (match TokenOf(t, k) case Some(tok) => Token(tok) case None => NotFound)
    case None => (match CodeOf(t, arg) case Some(c) => Code(c) case None => NotFound)
  }

  /** `$table[$this->field]` on save: the token the writer prints for the current value. */
  function Encode(t: Table, v: EnumValue): string
  {
    var key := match v
      case Code(c) => Some(c)
      case NotFound => Some(0)
      case Token(s) => IntegerKey(s);
    match key
    case Some(k) => (match TokenOf(t, k) case Some(tok) => tok case None => "")
    case None => ""
  }

  /** The tokens of both tables are upper-case words, never integer keys. */
  predicate IsWord(s: string)
  {
    |s| > 0 && forall i :: 0 <= i < |s| ==> 'A' <= s[i] <= 'Z'
  }

  ghost predicate WordTokens(t: Table)
  {
    forall i :: 0 <= i < |t| ==> IsWord(t[i].1)
  }

  lemma StatusTableShape()
    ensures Bijective(StatusTable) && WordTokens(StatusTable)
  {
  }

  lemma UnitsTableShape()
    ensures Bijective(UnitsTable) && WordTokens(UnitsTable)
  {
  }

  /** In a bijective table, the token of a code leads back to the code and vice versa. */
  lemma {:induction false} TableInverse(t: Table, code: int, token: string)
    requires Bijective(t)
    requires (code, token) in t
    ensures TokenOf(t, code) == Some(token)
    ensures CodeOf(t, token) == Some(code)
  {
    if t[0] != (code, token) {
      assert t[0].0 != code && t[0].1 != token by {
        var j :| 0 <= j < |t| && t[j] == (code, token);
        assert j != 0;
      }
      assert Bijective(t[1..]) by {
        forall i, j | 0 <= i < j < |t[1..]|
          ensures t[1..][i].0 != t[1..][j].0 && t[1..][i].1 != t[1..][j].1
        {
          assert t[1..][i] == t[i + 1] && t[1..][j] == t[j + 1];
        }
      }
      TableInverse(t[1..], code, token);
    }
  }

  /** A word token is searched, not looked up as a key. */
  lemma WordIsNoKey(s: string)
    requires IsWord(s)
    ensures IntegerKey(s) == None
  {
  }

  /**
   * Decoding the token written for a declared code gives the code back, for any
   * bijective table of word tokens (both tables of the library are such).
   */
  lemma DecodeEncoded(t: Table, code: int)
    requires Bijective(t) && WordTokens(t)
    requires TokenOf(t, code).Some?
    ensures Convert(t, Encode(t, Code(code))) == Code(code)
  {
    var tok := TokenOf(t, code).value;
    var i :| 0 <= i < |t| && t[i] == (code, tok);
    WordIsNoKey(tok);
    TableInverse(t, code, tok);
  }

  /** ON↔1 and OFF↔0. */
  lemma StatusRoundTrip(code: int)
    requires code == STATUS_ON || code == STATUS_OFF
    ensures Convert(StatusTable, Encode(StatusTable, Code(code))) == Code(code)
  {
    StatusTableShape();
    DecodeEncoded(StatusTable, code);
  }

  /** Every declared units code, INCHES … NAUTICALMILES, survives encoding and decoding. */
  lemma UnitsRoundTrip(code: int)
    requires TokenOf(UnitsTable, code).Some?
    ensures code in {0, 1, 2, 3, 4, 5, 6, 8}
    ensures Convert(UnitsTable, Encode(UnitsTable, Code(code))) == Code(code)
  {
    UnitsTableShape();
    DecodeEncoded(UnitsTable, code);
  }

  /** Units code 7 is not declared: looking it up yields FALSE, as text or as a number. */
  lemma UnitsSevenUndeclared()
    ensures TokenOf(UnitsTable, 7) == None
    ensures Convert(UnitsTable, "7") == NotFound
  {
    assert IntegerKey("7") == Some(7) by {
      assert IsDigits("7") && DigitsValue("7") == 7;
    }
  }

  /**
   * Exactly four arguments are understood by the status conversion: the tokens ON and
   * OFF (case-sensitively) and the canonical keys "1" and "0"; everything else is FALSE.
   */
  lemma StatusConvertCases(arg: string)
    ensures Convert(StatusTable, arg) == (
      if arg == "ON" then Code(STATUS_ON)
      else if arg == "OFF" then Code(STATUS_OFF)
      else if arg == "1" then Token("ON")
      else if arg == "0" then Token("OFF")
      else NotFound)
  {
    assert IntegerKey("1") == Some(1) by {
      assert IsDigits("1") && DigitsValue("1") == 1;
    }
    var t := StatusTable;
    assert t[0] == (STATUS_ON, "ON") && t[1..][0] == (STATUS_OFF, "OFF") && t[1..][1..] == [];
    match IntegerKey(arg)
    case Some(k) =>
      assert arg != "ON" && arg != "OFF";
      if k >= 0 {
        assert arg == NatToString(k);
        if k == 1 {
          assert arg == "1";
        } else if k == 0 {
          assert arg == "0";
        } else {
          NatToStringOfOther(k);
        }
      } else {
        assert arg[0] == '-';
      }
    case None =>
  }

  lemma NatToStringOfOther(k: nat)
    requires k != 0 && k != 1
    ensures NatToString(k) != "0" && NatToString(k) != "1"
  {
    NatToStringRoundTrip(k);
    assert DigitsValue("1") == 1 && DigitsValue("0") == 0;
  }

  /**
   * The numeric-argument quirk: a status line read as "1" stores the token "ON", which
   * is not a key of the table, so the writer then prints an empty token.
   */
  lemma NumericStatusIsStoredAsToken()
    ensures Convert(StatusTable, "1") == Token("ON")
    ensures Encode(StatusTable, Convert(StatusTable, "1")) == ""
  {
    StatusConvertCases("1");
    WordIsNoKey("ON");
  }

  /** A field holding FALSE is written as the token of code 0 (OFF, INCHES). */
  lemma NotFoundWrittenAsCodeZero(t: Table)
    ensures Encode(t, NotFound) == Encode(t, Code(0))
  {
  }
}
