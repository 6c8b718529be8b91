/** scripts/csv_to_json.py: every CSV record becomes a JSON object whose keys
  * are the stripped header names and whose values are typed by clean_value:
  * empty → null, numerals → int or float, true/yes/false/no → booleans,
  * anything else → the stripped text. */
module CsvToJson {
  import opened Common
  import opened Text
  import opened NumParse

  datatype Json = JNull | JInt(i: int) | JFloat(x: real) | JBool(b: bool) | JText(s: string)

  /** One CSV record as csv.DictReader yields it: header/value pairs in header
    * order; a value is None when the record is shorter than the header. */
  type Record = seq<(string, Option<string>)>

  /** The word tests of clean_value (lines 58-61), applied after the numeric attempt failed. */
  function Words(v: string): Json
  {
    var l := Lower(v);
    if l in ["true", "yes", "1"] then JBool(true)
    else if l in ["false", "no", "0"] then JBool(false)
    else JText(v)
  }

  /** Neither float() (with a point) nor int() (without) accepts v. */
  predicate NotNumeral(v: string)
  {
    ('.' in v ==> ParseFloat(v).None?) && ('.' !in v ==> ParseInt(v).None?)
  }

  /** Lines 49-64 on the stripped, non-blank text: a numeral becomes its
    * number (float when it has a point, int otherwise); otherwise the word
    * tests; otherwise the text itself. */
  function Typed(v: string): (r: Json)
    ensures ('.' !in v && ParseInt(v).Some?) ==> r == JInt(ParseInt(v).value)
    ensures ('.' in v && ParseFloat(v).Some?) ==> r == JFloat(ParseFloat(v).value)
    ensures NotNumeral(v) ==> (r == JBool(true) <==> Lower(v) in ["true", "yes", "1"])
    ensures NotNumeral(v) ==> (r == JBool(false) <==> Lower(v) in ["false", "no", "0"])
    ensures r.JText? <==> NotNumeral(v) && Lower(v) !in ["true", "yes", "1", "false", "no", "0"]
    ensures r.JText? ==> r.s == v
    ensures !r.JNull?
  {
    if '.' in v then
      match ParseFloat(v)
      case Some(x) => JFloat(x)
      case None => Words(v)
    else
      match ParseInt(v)
      case Some(i) => JInt(i)
      case None => Words(v)
  }

  /** clean_value: null for a missing or blank value, otherwise the typing of
    * the stripped text. */
  function CleanValue(value: Option<string>): (r: Json)
    ensures r.JNull? <==> value.None? || AllSpace(value.value)
    ensures value.Some? && !AllSpace(value.value) ==> Strip(value.value) != [] && r == Typed(Strip(value.value))
    ensures r.JText? ==> r.s == Strip(value.value)
    ensures r.JInt? ==> '.' !in Strip(value.value) && ParseInt(value.value) == Some(r.i)
    ensures r.JFloat? ==> '.' in Strip(value.value) && ParseFloat(value.value) == Some(r.x)
  {
    if value.None? then JNull
    else
      StripEmptyIffAllSpace(value.value);
      var v := Strip(value.value);
      StripIdempotent(value.value);
      if v == [] then JNull else Typed(v)
  }

  /** Every integer string comes back as that integer. */
  lemma CleanValueInteger(i: int)
    ensures CleanValue(Some(IntToString(i))) == JInt(i)
  {
    ParseIntRoundTrip(i);
    IntegerText(i);
    CleanValueOfInt(IntToString(i), i);
  }

  lemma IntegerText(i: int)
    ensures var s := IntToString(i);
      s != [] && forall k :: 0 <= k < |s| ==> IsDigit(s[k]) || s[k] == '-'
  {
    var d := NatToString(if i < 0 then -i else i);
    assert IntToString(i) == d || IntToString(i) == "-" + d;
  }

  lemma CleanValueOfInt(t: string, x: int)
    requires t != [] && (forall k :: 0 <= k < |t| ==> IsDigit(t[k]) || t[k] == '-')
    requires ParseInt(t) == Some(x)
    ensures CleanValue(Some(t)) == JInt(x)
  {
    PrintableNotSpace(t[0]);
    PrintableNotSpace(t[|t| - 1]);
    StripUnpadded(t);
    assert '.' !in t by {
      assert forall k :: 0 <= k < |t| ==> t[k] != '.';
    }
  }

  /** A numeral with a decimal point comes back as its value. */
  lemma CleanValueDecimal(whole: string, frac: string)
    requires AllDigits(whole) && AllDigits(frac) && |whole| + |frac| > 0
    ensures CleanValue(Some(whole + "." + frac)) == JFloat(DecimalValue(whole, frac))
  {
    DecimalNumeral(whole, frac);
    ParseFloatDecimal(whole, frac);
    CleanValueOfFloat(whole + "." + frac, DecimalValue(whole, frac));
  }

  lemma DecimalNumeral(whole: string, frac: string)
    requires AllDigits(whole) && AllDigits(frac)
    ensures var t := whole + "." + frac;
      '.' in t && forall i :: 0 <= i < |t| ==> IsDigit(t[i]) || t[i] == '.'
  {
    var t := whole + "." + frac;
    assert t[|whole|] == '.';
  }

  lemma CleanValueOfFloat(t: string, x: real)
    requires t != [] && (forall i :: 0 <= i < |t| ==> IsDigit(t[i]) || t[i] == '.')
    requires '.' in t && ParseFloat(t) == Some(x)
    ensures CleanValue(Some(t)) == JFloat(x)
  {
    NumeralUnpadded(t);
  }

  /** clean_value strips first, so a value and its stripped text clean alike. */
  lemma CleanValueStripped(t: string)
    ensures CleanValue(Some(Strip(t))) == CleanValue(Some(t))
  {
    StripIdempotent(t);
    StripEmptyIffAllSpace(t);
    StripEmptyIffAllSpace(Strip(t));
  }

  /** "1" and "0" are read as integers first, so the '1' and '0' entries of the
    * boolean lists can never produce a boolean. */
  lemma BooleansOnlyFromWords(value: Option<string>)
    requires CleanValue(value).JBool?
    ensures Lower(Strip(value.value)) in ["true", "yes", "false", "no"]
  {
    DigitWordsAreInts(value.value);
  }

  lemma DigitWordsAreInts(t: string)
    ensures Lower(Strip(t)) in ["1", "0"] ==> CleanValue(Some(t)).JInt?
  {
    var v := Strip(t);
    if Lower(v) in ["1", "0"] {
      assert |v| == 1 && LowerChar(v[0]) == Lower(v)[0];
      assert IsDigit(v[0]);
      SingleDigitIsInt(v);
      CleanValueStripped(t);
    }
  }

  /** A one-digit text cleans to that digit as an integer. */
  lemma SingleDigitIsInt(v: string)
    requires |v| == 1 && IsDigit(v[0])
    ensures CleanValue(Some(v)).JInt?
  {
    assert v == [v[0]];
    ParseDigits(v, DigitValue(v[0]));
    CleanValueOfInt(v, DigitValue(v[0]));
  }

  lemma CleanValueYes()
    ensures CleanValue(Some(" Yes ")) == JBool(true)
  {
    StripOf(" ", "Yes", " ");
    assert " " + "Yes" + " " == " Yes ";
    StripUnpadded("Yes");
    assert ParseInt("Yes") == None by {
      assert !IsDigit("Yes"[0]);
    }
    assert '.' !in "Yes";
    WordsYes();
  }

  lemma WordsYes()
    ensures Words("Yes") == JBool(true)
  {
    assert Lower("Yes") == "yes";
  }

  lemma CleanValueOne()
    ensures CleanValue(Some("1")) == JInt(1)
    ensures CleanValue(Some("0")) == JInt(0)
  {
    CleanValueInteger(1);
    CleanValueInteger(0);
  }

  /** The cleaned record: keys stripped, values cleaned; a later column whose
    * stripped name repeats an earlier one overwrites it (dict assignment). */
  function CleanRecord(rec: Record): (r: map<string, Json>)
    ensures r.Keys == set p | p in rec :: Strip(p.0)
  {
    if rec == [] then map[]
    else
      var last := rec[|rec| - 1];
      var r := CleanRecord(rec[..|rec| - 1])[Strip(last.0) := CleanValue(last.1)];
      assert rec == rec[..|rec| - 1] + [last];
      assert (set p | p in rec :: Strip(p.0))
          == (set p | p in rec[..|rec| - 1] :: Strip(p.0)) + {Strip(last.0)};
      r
  }

  /** The value under a key is the cleaned value of the LAST column with that stripped name. */
  lemma {:induction false} CleanRecordLastWins(rec: Record, i: nat)
    requires i < |rec|
    requires forall j :: i < j < |rec| ==> Strip(rec[j].0) != Strip(rec[i].0)
    ensures CleanRecord(rec)[Strip(rec[i].0)] == CleanValue(rec[i].1)
  {
    if i < |rec| - 1 {
      CleanRecordLastWins(rec[..|rec| - 1], i);
    }
  }

  /** The loop of lines 22-24 for one record. */
  method CleanRecordLoop(rec: Record) returns (cleaned: map<string, Json>)
    ensures cleaned == CleanRecord(rec)
  {
    cleaned := map[];
    for k := 0 to |rec|
      invariant cleaned == CleanRecord(rec[..k])
    {
      var key := rec[k].0;
      var value := rec[k].1;
      assert rec[..k + 1][..k] == rec[..k];
      cleaned := cleaned[Strip(key) := CleanValue(value)];
    }
    assert rec[..|rec|] == rec;
  }

  /** csv_to_json, lines 15-25: one cleaned object per record, in file order. */
  method ConvertRecords(records: seq<Record>) returns (data: seq<map<string, Json>>)
    ensures |data| == |records|
    ensures forall i :: 0 <= i < |records| ==> data[i] == CleanRecord(records[i])
  {
    data := [];
    for n := 0 to |records|
      invariant |data| == n
      invariant forall i :: 0 <= i < n ==> data[i] == CleanRecord(records[i])
    {
      var cleaned := CleanRecordLoop(records[n]);
      data := data + [cleaned];
    }
  }
}
