/**
 * LogicHandler.eval: a `$name` lookup in the handler's variable map, an
 * `a+b` sum of two int literals, or a bare int literal. Java's
 * String.split (which drops trailing empty strings), Integer.parseInt
 * (an optional sign and decimal digits, within 32 bits) and int addition
 * (which wraps at 32 bits) are written out, and every exception eval can
 * throw is an Err.
 */
module LogicHandler {
  import opened Wrappers

  /** The values eval can see or produce: null, a boxed Integer or a String. */
  datatype Value = Null | Int(n: int) | Str(s: string)

  /** The exceptions eval can throw. */
  datatype Exn =
    | NumberFormat(input: string)       // Integer.parseInt
    | IndexOutOfBounds(index: nat)      // an element of the split array that is not there

  const MinInt: int := -0x8000_0000
  const MaxInt: int := 0x7fff_ffff

  predicate IsInt32(n: int) {
    MinInt <= n <= MaxInt
  }

  /** Java int arithmetic: the exact result taken modulo 2^32 into the signed range. */
  function Wrap32(n: int): (r: int)
    ensures IsInt32(r)
    ensures (r - n) % 0x1_0000_0000 == 0
    ensures IsInt32(n) ==> r == n
  {
    var m := (n - MinInt) % 0x1_0000_0000;
    m + MinInt
  }

  // ---------------------------------------------------------------------
  // String.split on "\\+"

  /** Every field of s between the '+' separators, empty ones included. */
  function Fields(s: string): (r: seq<string>)
    ensures |r| >= 1
  {
    if |s| == 0 then [""]
    else
      var rest := Fields(s[1..]);
      if s[0] == '+' then [""] + rest else [[s[0]] + rest[0]] + rest[1..]
  }

  /** The fields put back together with '+' between them. */
  function Join(parts: seq<string>): string
    requires |parts| >= 1
  {
    if |parts| == 1 then parts[0] else parts[0] + "+" + Join(parts[1..])
  }

  predicate NoPlus(s: string) {
    forall i :: 0 <= i < |s| ==> s[i] != '+'
  }

  /** split with limit 0: the trailing empty fields are removed. */
  function DropTrailingEmpty(parts: seq<string>): (r: seq<string>)
    ensures |r| <= |parts| && r == parts[..|r|]
    ensures |r| > 0 ==> r[|r| - 1] != ""
    ensures forall i :: |r| <= i < |parts| ==> parts[i] == ""
  {
    if |parts| > 0 && parts[|parts| - 1] == "" then DropTrailingEmpty(parts[..|parts| - 1]) else parts
  }

  /**
   * `expr.split("\\+")`: the fields without the trailing empty ones. When
   * no '+' matches, Java returns the whole input, so the empty text splits
   * to one empty field.
   */
  function Split(s: string): seq<string> {
    if s == "" then [""] else DropTrailingEmpty(Fields(s))
  }

  /** Splitting and joining again gives the text back, and no field holds a '+'. */
  lemma {:induction false} FieldsJoin(s: string)
    ensures Join(Fields(s)) == s
    ensures forall k :: 0 <= k < |Fields(s)| ==> NoPlus(Fields(s)[k])
  {
    if |s| > 0 {
      FieldsJoin(s[1..]);
      var rest := Fields(s[1..]);
      if s[0] == '+' {
        assert Fields(s) == [""] + rest;
        assert Join(Fields(s)) == "" + "+" + Join(rest);
      } else {
        var f := Fields(s);
        assert f == [[s[0]] + rest[0]] + rest[1..];
        if |rest| == 1 {
          assert Join(f) == [s[0]] + rest[0];
        } else {
          assert f[1..] == rest[1..];
          assert Join(f) == [s[0]] + rest[0] + "+" + Join(rest[1..]);
          assert Join(rest) == rest[0] + "+" + Join(rest[1..]);
        }
        assert NoPlus(f[0]) by {
          forall i | 0 <= i < |f[0]| ensures f[0][i] != '+' {
            if i > 0 {
              assert f[0][i] == rest[0][i - 1];
            }
          }
        }
        assert forall k :: 1 <= k < |f| ==> f[k] == rest[k];
      }
    }
  }

  /** Joining '+'-free fields and splitting again gives the fields back. */
  lemma {:induction false} JoinFields(parts: seq<string>)
    requires |parts| >= 1
    requires forall k :: 0 <= k < |parts| ==> NoPlus(parts[k])
    ensures Fields(Join(parts)) == parts
    decreases |parts|
  {
    if |parts| == 1 {
      NoPlusField(parts[0], "");
      assert parts[0] + "" == parts[0];
      assert parts == [parts[0]];
    } else {
      JoinFields(parts[1..]);
      var tail := "+" + Join(parts[1..]);
      assert Join(parts) == parts[0] + tail;
      NoPlusField(parts[0], tail);
      assert tail[1..] == Join(parts[1..]);
      assert Fields(tail) == [""] + parts[1..];
      assert parts[0] + "" == parts[0];
      assert parts == [parts[0]] + parts[1..];
    }
  }

  /** A '+'-free prefix extends the first field of what follows it. */
  lemma {:induction false} NoPlusField(x: string, y: string)
    requires NoPlus(x)
    ensures Fields(x + y) == [x + Fields(y)[0]] + Fields(y)[1..]
    decreases |x|
  {
    if |x| > 0 {
      assert (x + y)[1..] == x[1..] + y;
      assert (x + y)[0] == x[0] != '+';
      NoPlusField(x[1..], y);
      var rest := Fields(x[1..] + y);
      assert Fields(x + y) == [[x[0]] + rest[0]] + rest[1..];
      assert rest[0] == x[1..] + Fields(y)[0] && rest[1..] == Fields(y)[1..];
      assert [x[0]] + (x[1..] + Fields(y)[0]) == x + Fields(y)[0];
    } else {
      assert x + y == y;
      assert "" + Fields(y)[0] == Fields(y)[0];
      assert Fields(y) == [Fields(y)[0]] + Fields(y)[1..];
    }
  }

  // ---------------------------------------------------------------------
  // Integer.parseInt and Integer.toString

  predicate IsDigit(c: char) {
    '0' <= c <= '9'
  }

  predicate AllDigits(s: string) {
    forall i :: 0 <= i < |s| ==> IsDigit(s[i])
  }

  /** The number a string of decimal digits denotes. */
  function DigitsValue(s: string): (n: nat)
    requires AllDigits(s)
    decreases |s|
  {
    if |s| == 0 then 0 else DigitsValue(s[..|s| - 1]) * 10 + (s[|s| - 1] as int - '0' as int)
  }

  /** The decimal digits of n, without leading zeros. */
  function Digits(n: nat): (s: string)
    ensures |s| >= 1 && AllDigits(s)
  {
    if n < 10 then [('0' as int + n) as char] else Digits(n / 10) + [('0' as int + n % 10) as char]
  }

  /** Integer.toString. */
  function Show(n: int): (s: string)
    ensures |s| >= 1 && NoPlus(s) && s[0] != '$'
  {
    var s := if n < 0 then "-" + Digits(-n) else Digits(n);
    assert forall i :: 0 <= i < |s| ==> s[i] == '-' || IsDigit(s[i]);
    s
  }

  /** The text parseInt accepts, apart from the range: an optional sign and one or more digits. */
  predicate IsDecimal(s: string) {
    |s| >= 1 && (if s[0] == '-' || s[0] == '+' then |s| >= 2 && AllDigits(s[1..]) else AllDigits(s))
  }

  /** The number a decimal text denotes. */
  function DecimalValue(s: string): int
    requires IsDecimal(s)
  {
    if s[0] == '-' then 0 - DigitsValue(s[1..])
    else if s[0] == '+' then DigitsValue(s[1..])
    else DigitsValue(s)
  }

  /** Integer.parseInt, for decimal digits '0' to '9'. */
  function ParseInt(s: string): (r: Result<int, Exn>)
    ensures r.Ok? <==> IsDecimal(s) && IsInt32(DecimalValue(s))
    ensures r.Ok? ==> r.value == DecimalValue(s)
    ensures r.Err? ==> r.error == NumberFormat(s)
  {
    if |s| == 0 then Err(NumberFormat(s))
    else
      var signed := s[0] == '-' || s[0] == '+';
      var body := if signed then s[1..] else s;
      if |body| == 0 || !AllDigits(body) then Err(NumberFormat(s))
      else
        var magnitude := DigitsValue(body);
        var n: int := if s[0] == '-' then 0 - magnitude else magnitude;
        if IsInt32(n) then Ok(n) else Err(NumberFormat(s))
  }

  lemma {:induction false} DigitsRoundTrip(n: nat)
    ensures DigitsValue(Digits(n)) == n
  {
    if n >= 10 {
      DigitsRoundTrip(n / 10);
      var s := Digits(n);
      assert s[..|s| - 1] == Digits(n / 10);
    }
  }

  /** parseInt reads back what toString writes, for every int. */
  lemma ParseShow(n: int)
    requires IsInt32(n)
    ensures ParseInt(Show(n)) == Ok(n)
  {
    var s := Show(n);
    if n < 0 {
      DigitsRoundTrip(-n);
      assert s == "-" + Digits(-n);
      assert s[1..] == Digits(-n);
      assert IsDecimal(s);
      assert DecimalValue(s) == n;
    } else {
      DigitsRoundTrip(n);
      assert s == Digits(n);
      assert s[0] != '-' && s[0] != '+';
      assert IsDecimal(s);
      assert DecimalValue(s) == n;
    }
  }

  // ---------------------------------------------------------------------
  // eval

  /** `parts[i]`, which throws when the array is too short. */
  function Part(parts: seq<string>, i: nat): Result<string, Exn> {
    if i < |parts| then Ok(parts[i]) else Err(IndexOutOfBounds(i))
  }

  /** `Integer.parseInt(parts[0]) + Integer.parseInt(parts[1])`, evaluated left to right. */
  function Sum(parts: seq<string>): Result<Value, Exn> {
    var p0 :- Part(parts, 0);
    var a :- ParseInt(p0);
    var p1 :- Part(parts, 1);
    var b :- ParseInt(p1);
    Ok(Int(Wrap32(a + b)))
  }

  /** eval(expr) over the handler's variables; None is Java's null. */
  function Eval(variables: map<string, Value>, expr: Option<string>): Result<Value, Exn> {
    match expr
    case None => Ok(Null)
    case Some(s) =>
      if |s| > 0 && s[0] == '$' then
        var name := s[1..];
        Ok(if name in variables then variables[name] else Str("undefined"))
      else if !NoPlus(s) then Sum(Split(s))
      else
        var n :- ParseInt(s);
        Ok(Int(n))
  }

  /** The test's setVariable: an entry put into the map. */
  function SetVariable(variables: map<string, Value>, name: string, v: Value): (r: map<string, Value>)
    ensures name in r && r[name] == v
    ensures forall k :: k in variables && k != name ==> k in r && r[k] == variables[k]
    ensures r.Keys == variables.Keys + {name}
  {
    variables[name := v]
  }

  // ---------------------------------------------------------------------
  // What eval does

  lemma EvalNull(variables: map<string, Value>)
    ensures Eval(variables, None) == Ok(Null)
  {
  }

  /**
   * A leading '$' always means a lookup of the rest of the text, even when
   * it holds a '+'; a missing name yields the string "undefined" and a name
   * bound to null yields null.
   */
  lemma EvalLookup(variables: map<string, Value>, name: string)
    ensures Eval(variables, Some("$" + name)) ==
      Ok(if name in variables then variables[name] else Str("undefined"))
  {
    assert ("$" + name)[1..] == name;
  }

  /** What a variable was last set to is what a lookup returns. */
  lemma EvalAfterSet(variables: map<string, Value>, name: string, v: Value)
    ensures Eval(SetVariable(variables, name, v), Some("$" + name)) == Ok(v)
  {
    EvalLookup(SetVariable(variables, name, v), name);
  }

  /** With no '$' and no '+', eval is parseInt. */
  lemma EvalLiteral(variables: map<string, Value>, s: string)
    requires !(|s| > 0 && s[0] == '$') && NoPlus(s)
    ensures Eval(variables, Some(s)) ==
      (if ParseInt(s).Ok? then Ok(Int(ParseInt(s).value)) else Err(NumberFormat(s)))
  {
  }

  /**
   * The sum of the first two fields, for any '+'-free spelling parseInt
   * accepts ("007", "-0"), with 32-bit wrap-around; whatever follows a
   * second '+' is ignored.
   */
  lemma EvalSum(variables: map<string, Value>, x: string, y: string, a: int, b: int, rest: Option<string>)
    requires NoPlus(x) && NoPlus(y) && y != ""
    requires ParseInt(x) == Ok(a) && ParseInt(y) == Ok(b)
    ensures var s := x + "+" + y + (if rest.Some? then "+" + rest.value else "");
      Eval(variables, Some(s)) == Ok(Int(Wrap32(a + b)))
  {
    var tail := if rest.Some? then "+" + rest.value else "";
    var s := x + "+" + y + tail;
    FirstTwoFields(x, y, tail);
    assert s[|x|] == '+';
    assert s[0] == x[0] && x[0] != '$' by {
      assert IsDecimal(x);
      if x[0] != '-' && x[0] != '+' {
        assert IsDigit(x[0]);
      }
    }
    SumOfParsed(Split(s), a, b);
  }

  lemma SumOfParsed(parts: seq<string>, a: int, b: int)
    requires |parts| >= 2 && ParseInt(parts[0]) == Ok(a) && ParseInt(parts[1]) == Ok(b)
    ensures Sum(parts) == Ok(Int(Wrap32(a + b)))
  {
    assert Part(parts, 0) == Ok(parts[0]);
    assert Part(parts, 1) == Ok(parts[1]);
  }

  /** Both operands survive the split when the second one is not empty. */
  lemma FirstTwoFields(x: string, y: string, tail: string)
    requires NoPlus(x) && NoPlus(y) && y != ""
    requires tail == "" || tail[0] == '+'
    ensures var r := Split(x + "+" + y + tail); |r| >= 2 && r[0] == x && r[1] == y
  {
    var s := x + "+" + y + tail;
    assert s == x + ("+" + (y + tail));
    assert Fields(tail)[0] == "" by {
      if tail != "" {
        assert Fields(tail) == [""] + Fields(tail[1..]);
      }
    }
    NoPlusField(y, tail);
    assert y + "" == y;
    assert Fields(y + tail)[0] == y;
    assert ("+" + (y + tail))[1..] == y + tail;
    assert Fields("+" + (y + tail)) == [""] + Fields(y + tail);
    NoPlusField(x, "+" + (y + tail));
    assert x + "" == x;
    var f := Fields(s);
    assert f[0] == x && f[1] == y;
    KeepsNonEmpty(f, 1);
    var r := Split(s);
    assert r[..2] == f[..2];
    assert r[0] == r[..2][0] && r[1] == r[..2][1];
  }

  /** Dropping trailing empty fields keeps every field up to the last non-empty one. */
  lemma KeepsNonEmpty(parts: seq<string>, i: nat)
    requires i < |parts| && parts[i] != ""
    ensures i < |DropTrailingEmpty(parts)| && DropTrailingEmpty(parts)[..i + 1] == parts[..i + 1]
  {
    var r := DropTrailingEmpty(parts);
    assert r == parts[..|r|];
  }

  /** "1+2+3" is 3: the third operand is dropped. */
  lemma EvalIgnoresThirdOperand(variables: map<string, Value>)
    ensures Eval(variables, Some("1+2+3")) == Ok(Int(3))
  {
    ParseShow(1);
    ParseShow(2);
    assert Show(1) == "1" && Show(2) == "2";
    EvalSum(variables, "1", "2", 1, 2, Some("3"));
    assert "1" + "+" + "2" + ("+" + "3") == "1+2+3";
  }

  /** A leading '+' (with no '$') fails: the first field is empty or there is none. */
  lemma EvalLeadingPlus(variables: map<string, Value>, rest: string)
    ensures Eval(variables, Some("+" + rest)).Err?
  {
    var s := "+" + rest;
    assert s[0] == '+' && !NoPlus(s);
    assert s[1..] == rest;
    var r := Split(s);
    assert Fields(s)[0] == "";
    if |r| > 0 {
      assert r[0] == Fields(s)[0];
      assert ParseInt("").Err?;
    }
  }

  /**
   * A '+' right after the first operand, with nothing or another '+' after
   * it, fails: the second field is empty or there is none.
   */
  lemma EvalMissingSecondOperand(variables: map<string, Value>, x: string, rest: Option<string>)
    requires NoPlus(x) && !(|x| > 0 && x[0] == '$')
    ensures Eval(variables, Some(x + "+" + (if rest.Some? then "+" + rest.value else ""))).Err?
  {
    var tail := if rest.Some? then "+" + rest.value else "";
    var s := x + "+" + tail;
    assert s == x + ("+" + tail);
    assert s[|x|] == '+';
    NoPlusField(x, "+" + tail);
    var f := Fields(s);
    assert f[1..] == Fields(tail);
    assert Fields(tail)[0] == "";
    var r := Split(s);
    assert |r| > 1 ==> r[1] == f[1];
  }
}
