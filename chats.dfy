/** Chat identifiers as the bot handles them. Python lets one list hold
    both integers (ids the bot stored itself) and strings (entries of the
    TARGET_CHANNELS setting, usernames, ids not yet converted); the two
    are never equal to each other, so `5 != "5"`. */
module Chats {
  import opened Wrappers
  import opened Text

  datatype ChannelRef = IntId(id: int) | StrId(name: string)

  /** Python's `str(c)`. */
  function Str(c: ChannelRef): string {
    match c
    case IntId(n) => IntToString(n)
    case StrId(s) => s
  }

  /** `int(c) if str(c).startswith('-') else c`, used before copying a
      message to a chat (services/broadcast_service.py:25) and before
      looking one up (services/info_service.py:33). None where `int()`
      raises. A value becomes an integer exactly when its text starts
      with '-' (or it already was one). */
  function CoerceNegative(c: ChannelRef): (r: Option<ChannelRef>)
    ensures r.None? <==> c.StrId? && StartsWith(c.name, "-") && PyInt(c.name).None?
    ensures r.Some? ==> (r.value.IntId? <==> c.IntId? || StartsWith(c.name, "-"))
    ensures r.Some? && c.IntId? ==> r.value == c
    ensures r.Some? && c.StrId? && StartsWith(c.name, "-") ==> r.value == IntId(PyInt(c.name).value)
    ensures r.Some? && c.StrId? && !StartsWith(c.name, "-") ==> r.value == c
  {
    match c
    case IntId(_) => Some(c)
    case StrId(s) =>
      if StartsWith(s, "-") then
        match PyInt(s)
        case Some(n) => Some(IntId(n))
        case None => None
      else Some(c)
  }

  /** A negative id written as text is converted to that integer. */
  lemma CoerceNegativeOfText(n: int)
    requires n < 0
    ensures CoerceNegative(StrId(IntToString(n))) == Some(IntId(n))
  {
    IntRoundTrip(n);
  }

  /** `int(x) if isinstance(x, str) and x.lstrip('-').isdigit() else x`
      (ui/panels.py:60, and the filter of handlers/callback_handler.py:157).
      None where the guard passes but `int()` then raises. */
  function CoerceNumeric(c: ChannelRef): (r: Option<ChannelRef>)
    ensures c.IntId? ==> r == Some(c)
    ensures c.StrId? && !IsDigits(LStripChar(c.name, '-')) ==> r == Some(c)
    ensures c.StrId? && IsDigits(LStripChar(c.name, '-')) ==>
              (r.None? <==> PyInt(c.name).None?) && (r.Some? ==> r.value == IntId(PyInt(c.name).value))
  {
    match c
    case IntId(_) => Some(c)
    case StrId(s) =>
      if IsDigits(LStripChar(s, '-')) then
        match PyInt(s)
        case Some(n) => Some(IntId(n))
        case None => None
      else Some(c)
  }

  /** The guard of CoerceNumeric lets through text that int() rejects:
      exactly the digit strings preceded by two or more '-'. */
  lemma CoerceNumericFails(s: string)
    ensures CoerceNumeric(StrId(s)) == None
            <==> |s| >= 2 && s[0] == '-' && s[1] == '-' && IsDigits(LStripChar(s, '-'))
  {
    if !IsDigits(LStripChar(s, '-')) {
      assert CoerceNumeric(StrId(s)) == Some(StrId(s));
    } else if |s| >= 2 && s[0] == '-' && s[1] == '-' {
      GuardedTextRejected(s);
    } else {
      GuardedTextAccepted(s);
    }
  }

  lemma GuardedTextClean(s: string)
    requires IsDigits(LStripChar(s, '-'))
    ensures PyInt(s) == ParseInt(s)
  {
    var t := LStripChar(s, '-');
    LStripCharShape(s, '-');
    assert s[|s| - 1] == t[|t| - 1];
    StripClean(s);
  }

  lemma GuardedTextRejected(s: string)
    requires IsDigits(LStripChar(s, '-'))
    requires |s| >= 2 && s[0] == '-' && s[1] == '-'
    ensures CoerceNumeric(StrId(s)) == None
  {
    GuardedTextClean(s);
    TwoMinusRejected(s);
  }

  lemma GuardedTextAccepted(s: string)
    requires IsDigits(LStripChar(s, '-'))
    requires !(|s| >= 2 && s[0] == '-' && s[1] == '-')
    ensures CoerceNumeric(StrId(s)).Some?
  {
    GuardedTextClean(s);
    var t := LStripChar(s, '-');
    if s[0] == '-' {
      assert s[1..] == t;
      OneMinusAccepted(s);
    } else {
      assert s == t;
    }
  }

  lemma TwoMinusRejected(s: string)
    requires |s| >= 2 && s[0] == '-' && s[1] == '-'
    ensures ParseInt(s) == None
  {
    assert !IsDigit(s[0]);
    assert !IsDigit(s[1..][0]);
  }

  lemma OneMinusAccepted(s: string)
    requires |s| >= 2 && s[0] == '-' && IsDigits(s[1..])
    ensures ParseInt(s).Some?
  {
    assert !IsDigit(s[0]);
  }

  /** The text "--5" passes the isdigit guard and then makes int() raise. */
  lemma DoubleMinusRaises()
    ensures CoerceNumeric(StrId("--5")) == None
  {
    CoerceNumericFails("--5");
    assert LStripChar("--5", '-') == "5";
  }

  /** Text that is a plain integer becomes that integer. */
  lemma CoerceNumericOfText(n: int)
    ensures CoerceNumeric(StrId(IntToString(n))) == Some(IntId(n))
  {
    var s := IntToString(n);
    IntRoundTrip(n);
    if n < 0 {
      assert s[1..] == NatToString(-n);
      assert LStripChar(s, '-') == LStripChar(s[1..], '-');
      assert LStripChar(s[1..], '-') == s[1..];
    } else {
      assert LStripChar(s, '-') == s;
    }
  }
}
