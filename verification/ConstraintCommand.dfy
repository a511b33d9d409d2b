/** The text written to a prioritised PM QoS node (createConstraintCommand of power/timeoutpoker.cpp), and
    when a reader of that format gets the request back. */
module ConstraintCommand {
  import opened Wrappers
  import opened CText

  const COMMAND_SIZE := 20

  /** "max min priority timeoutMs", with timeout 0. */
  function Text(priority: int, max: int, min: int): string {
    Decimal(max) + " " + Decimal(min) + " " + Decimal(priority) + " 0"
  }

  /** What is left of a text in a buffer of `size` characters, the last one being the terminator. */
  function Cut(text: string, size: nat): string
    requires size > 0
  {
    if |text| < size then text else text[..size - 1]
  }

  predicate NoNul(s: string) {
    forall i :: 0 <= i < |s| ==> s[i] != '\0'
  }

  /** snprintf of an already formatted text. */
  method SnPrintf(buf: array<char>, size: nat, text: string)
    requires 0 < size <= buf.Length
    modifies buf
    ensures buf[..|Cut(text, size)|] == Cut(text, size) && buf[|Cut(text, size)|] == '\0'
    ensures forall k :: |Cut(text, size)| < k < buf.Length ==> buf[k] == old(buf[k])
  {
    var i := 0;
    while i < |text| && i < size - 1
      invariant i <= |Cut(text, size)| && buf[..i] == Cut(text, size)[..i]
      invariant forall k :: i <= k < buf.Length ==> buf[k] == old(buf[k])
    {
      buf[i] := text[i];
      i := i + 1;
    }
    buf[i] := '\0';
  }

  method StrLen(buf: array<char>) returns (n: nat)
    requires '\0' in buf[..]
    ensures n < buf.Length && buf[n] == '\0' && forall i :: 0 <= i < n ==> buf[i] != '\0'
  {
    n := 0;
    while buf[n] != '\0'
      invariant n < buf.Length && '\0' in buf[n..] && forall i :: 0 <= i < n ==> buf[i] != '\0'
      decreases buf.Length - n
    {
      n := n + 1;
    }
  }

  /** The first `n` characters of the buffer are the text, cut to what fits, and end in a terminator. */
  method CreateConstraintCommand(command: array<char>, size: nat, priority: int, max: int, min: int) returns (n: nat)
    requires 0 < size <= command.Length
    modifies command
    ensures n < size && command[..n] == Cut(Text(priority, max, min), size) && command[n] == '\0'
    ensures forall k :: n < k < command.Length ==> command[k] == old(command[k])
  {
    var text := Text(priority, max, min);
    SnPrintf(command, size, text);
    ghost var k := |Cut(text, size)|;
    assert command[k] in command[..];
    TextHasNoNul(priority, max, min);
    assert forall i :: 0 <= i < k ==> command[i] == command[..k][i] == text[i];
    n := StrLen(command);
    assert n == k;
  }

  lemma TextHasNoNul(priority: int, max: int, min: int)
    ensures NoNul(Text(priority, max, min))
  {
    DecimalIsDecimal(max);
    DecimalIsDecimal(min);
    DecimalIsDecimal(priority);
  }

  // ---------- Reading it back ----------

  function FirstSpace(s: string): (i: nat)
    ensures i <= |s| && (forall k :: 0 <= k < i ==> s[k] != ' ') && (i < |s| ==> s[i] == ' ')
  {
    if s == [] || s[0] == ' ' then 0 else 1 + FirstSpace(s[1..])
  }

  /** The pieces between single spaces. */
  function Fields(s: string): seq<string> {
    var i := FirstSpace(s);
    if i == |s| then [s] else [s[..i]] + Fields(s[i + 1..])
  }

  datatype Constraint = Constraint(max: int, min: int, priority: int, timeout: int)

  /** A reader of "max min priority timeoutMs": exactly four decimal numbers, one space apart. */
  function Read(s: string): Option<Constraint> {
    var f := Fields(s);
    if |f| == 4 && forall i :: 0 <= i < 4 ==> IsDecimal(f[i])
    then Some(Constraint(Atoi(f[0]), Atoi(f[1]), Atoi(f[2]), Atoi(f[3])))
    else None
  }

  predicate NoSpace(s: string) {
    forall i :: 0 <= i < |s| ==> s[i] != ' '
  }

  lemma OneField(a: string)
    requires NoSpace(a)
    ensures Fields(a) == [a]
  {
  }

  lemma FirstField(a: string, rest: string)
    requires NoSpace(a)
    ensures Fields(a + " " + rest) == [a] + Fields(rest)
  {
    var s := a + " " + rest;
    assert s[|a|] == ' ';
    assert forall k :: 0 <= k < |a| ==> s[k] == a[k];
    assert FirstSpace(s) == |a|;
    assert s[..|a|] == a && s[|a| + 1..] == rest;
  }

  /** Cutting a text never adds fields. */
  lemma {:induction false} CutFields(s: string, k: nat)
    requires k <= |s|
    ensures |Fields(s[..k])| <= |Fields(s)|
    decreases |s|
  {
    var i := FirstSpace(s);
    if i < k {
      hide Fields, FirstSpace;
      CutOne(s, i, k);
      CutFields(s[i + 1..], k - i - 1);
    } else {
      OneField(s[..k]);
    }
  }

  lemma CutOne(s: string, i: nat, k: nat)
    requires i == FirstSpace(s) < k <= |s|
    ensures Fields(s) == [s[..i]] + Fields(s[i + 1..])
    ensures Fields(s[..k]) == [s[..i]] + Fields(s[i + 1..][..k - i - 1])
  {
    CutAfterSpace(s, i, k);
    FirstField(s[..i], s[i + 1..][..k - i - 1]);
  }

  lemma CutAfterSpace(s: string, i: nat, k: nat)
    requires i < k <= |s| && s[i] == ' '
    ensures s[..k] == s[..i] + " " + s[i + 1..][..k - i - 1]
  {
  }

  lemma LeadingFields(a: string, b: string, rest: string)
    requires NoSpace(a) && NoSpace(b)
    ensures Fields(a + " " + b + " " + rest) == [a, b] + Fields(rest)
  {
    hide Fields, FirstSpace;
    assert a + " " + b + " " + rest == a + " " + (b + " " + rest);
    FirstField(a, b + " " + rest);
    FirstField(b, rest);
  }

  lemma FourFields(a: string, b: string, c: string, d: string)
    requires NoSpace(a) && NoSpace(b) && NoSpace(c) && NoSpace(d)
    ensures Fields(a + " " + b + " " + c + " " + d) == [a, b, c, d]
  {
    hide Fields, FirstSpace;
    assert a + " " + b + " " + c + " " + d == a + " " + b + " " + (c + " " + d);
    LeadingFields(a, b, c + " " + d);
    FirstField(c, d);
    OneField(d);
  }

  lemma WholeTextReads(priority: int, max: int, min: int)
    ensures Read(Text(priority, max, min)) == Some(Constraint(max, min, priority, 0))
  {
    var (a, b, c) := (Decimal(max), Decimal(min), Decimal(priority));
    DecimalIsDecimal(max);
    DecimalIsDecimal(min);
    DecimalIsDecimal(priority);
    assert Text(priority, max, min) == a + " " + b + " " + c + " " + "0";
    assert "0" == Decimal(0);
    DecimalIsDecimal(0);
    FourFields(a, b, c, "0");
  }

  /** A text that lost anything at all has no fourth number. */
  lemma CutTextDoesNotRead(priority: int, max: int, min: int, k: nat)
    requires k < |Text(priority, max, min)|
    ensures Read(Text(priority, max, min)[..k]) == None
  {
    var (a, b, c) := (Decimal(max), Decimal(min), Decimal(priority));
    DecimalIsDecimal(max);
    DecimalIsDecimal(min);
    DecimalIsDecimal(priority);
    var text, three := Text(priority, max, min), a + " " + b + " " + c;
    if k == |text| - 1 {
      assert text[..k] == a + " " + b + " " + c + " " + "";
      FourFields(a, b, c, "");
    } else {
      assert text[..k] == three[..k];
      LeadingFields(a, b, c);
      OneField(c);
      CutFields(three, k);
    }
  }

  /** A reader gets the request back from a buffer of any size if and only if the text fits in it. */
  lemma ReadBackIff(priority: int, max: int, min: int, size: nat)
    requires size > 0
    ensures Read(Cut(Text(priority, max, min), size)) == Some(Constraint(max, min, priority, 0))
       <==> |Text(priority, max, min)| < size
    ensures |Text(priority, max, min)| >= size ==> Read(Cut(Text(priority, max, min), size)) == None
  {
    if |Text(priority, max, min)| < size {
      WholeTextReads(priority, max, min);
    } else {
      CutTextDoesNotRead(priority, max, min, size - 1);
    }
  }

  /** With no maximum and a two-digit priority, every 32-bit minimum fits in the 20-character buffer. */
  lemma MinimumAlwaysFits(priority: int, min: int)
    requires 10 <= priority <= 99 && Int32(min)
    ensures |Text(priority, -1, min)| < COMMAND_SIZE
  {
    Int32Length(min);
    assert |Digits(priority)| == 2;
    assert |Decimal(-1)| == 2;
  }

  /** With a maximum as well, the largest values do not fit. */
  lemma LargePairDoesNotFit()
    ensures Read(Cut(Text(35, INT_MAX, INT_MAX), COMMAND_SIZE)) == None
  {
    DigitCount(INT_MAX, 9);
    assert Power10(4) == 10000;
    assert Power10(9) == 10000 * 100000;
    ReadBackIff(35, INT_MAX, INT_MAX, COMMAND_SIZE);
  }
}
