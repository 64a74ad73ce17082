/** The command-line validators of the visualisation tool: `split_res`,
    `is_variable`, and the rule that picks the scalar file's suffix. */
module Cli {
  import opened Text

  /** What the validators raise. */
  datatype CliError =
    | UnpackError                  // `x, y = res.split("x")` without exactly two pieces
    | NotAnInteger(text: string)   // `int(...)` on a string that is not an integer
    | InvalidVariable(text: string) // the variable is not one of the accepted names

  datatype Result<T> = Ok(value: T) | Err(error: CliError)

  /** `int(s)` for an optional sign followed by decimal digits. */
  function ParseInt(s: string): Result<int> {
    if |s| > 1 && (s[0] == '-' || s[0] == '+') && AllDigits(s[1..]) then
      Ok(if s[0] == '-' then 0 - DigitsValue(s[1..]) as int else DigitsValue(s[1..]))
    else if |s| > 0 && AllDigits(s) then
      Ok(DigitsValue(s))
    else
      Err(NotAnInteger(s))
  }

  /** `int(str(n)) == n`. */
  lemma ParseIntRoundTrip(n: nat)
    ensures ParseInt(NatToString(n)) == Ok(n)
  {
    NatToStringRoundTrip(n);
  }

  /** `split_res`: lower-case, split on "x", and read both pieces as integers. */
  function SplitRes(res: string): (r: Result<(int, int)>)
    ensures Occurrences(Lower(res), 'x') != 1 ==> r == Err(UnpackError)
    ensures r.Ok? ==> Occurrences(Lower(res), 'x') == 1
  {
    var parts := Split(Lower(res), 'x');
    if |parts| != 2 then Err(UnpackError)
    else match ParseInt(parts[0])
      case Err(e) => Err(e)
      case Ok(w) =>
        match ParseInt(parts[1])
        case Err(e) => Err(e)
        case Ok(h) => Ok((w, h))
  }

  /** A resolution written "WxH" or "WXH" is read back as (W, H). */
  lemma SplitResRoundTrip(w: nat, h: nat, upper: bool)
    ensures SplitRes(NatToString(w) + [if upper then 'X' else 'x'] + NatToString(h)) == Ok((w, h))
  {
    var sw, sh := NatToString(w), NatToString(h);
    var sep := if upper then 'X' else 'x';
    var joined := sw + ['x'] + sh;
    assert Lower(sw + [sep] + sh) == joined by {
      LowerDigits(sw);
      LowerDigits(sh);
      LowerAppend(sw, [sep]);
      LowerAppend(sw + [sep], sh);
    }
    assert Split(joined, 'x') == [sw, sh] by {
      assert 'x' !in sw && 'x' !in sh by {
        assert AllDigits(sw) && AllDigits(sh);
      }
      assert Join([sw, sh], 'x') == joined;
      SplitJoin([sw, sh], 'x');
    }
    ParseIntRoundTrip(w);
    ParseIntRoundTrip(h);
  }

  /** The accepted names of the scalar field. */
  const Variables: set<string> := {"temperature", "pressure", "t", "p"}

  /** `is_variable`: the lower-cased name when it is accepted. */
  function IsVariable(name: string): (r: Result<string>)
    ensures r.Ok? <==> Lower(name) in Variables
    ensures r.Ok? ==> r.value == Lower(name) && r.value in Variables
  {
    var v := Lower(name);
    if v in Variables then Ok(v) else Err(InvalidVariable(name))
  }

  /** `is_variable` is idempotent: its own accepted result is accepted again and returned unchanged. */
  lemma IsVariableIdempotent(name: string)
    requires IsVariable(name).Ok?
    ensures IsVariable(IsVariable(name).value) == IsVariable(name)
  {
    LowerIdempotent(name);
  }

  /** `variable[0].upper()`: the suffix of the scalar data file. */
  function VariableCode(v: string): string
    requires |v| > 0
  {
    [UpperChar(v[0])]
  }

  /** Every accepted name selects the "T" file or the "P" file, temperature names the first, pressure names the second. */
  lemma VariableCodeOfAccepted(name: string)
    requires IsVariable(name).Ok?
    ensures |IsVariable(name).value| > 0
    ensures VariableCode(IsVariable(name).value) == "T" <==> IsVariable(name).value in {"temperature", "t"}
    ensures VariableCode(IsVariable(name).value) == "P" <==> IsVariable(name).value in {"pressure", "p"}
  {
    var v := IsVariable(name).value;
    assert v == "temperature" || v == "pressure" || v == "t" || v == "p";
    if v == "temperature" {
      assert v[0] == 't';
    } else if v == "pressure" {
      assert v[0] == 'p';
    }
  }
}
