/**
 * Control-character removal applied to every text that reaches the database
 * or the language model: `sanitize_text` in the LegiScan utilities and
 * `ensure_plain_string` in the analysis preprocessing.
 */
module Sanitize {
  import opened PyValue
  import Utf8

  /** The class [\x00-\x08\x0b-\x0c\x0e-\x1f\x7f]: C0 controls except tab, LF and CR, plus DEL. */
  predicate IsControl(c: char)
  {
    var n := c as int;
    (0 <= n <= 0x08) || n == 0x0b || n == 0x0c || (0x0e <= n <= 0x1f) || n == 0x7f
  }

  predicate NoControl(s: string)
  {
    forall i :: 0 <= i < |s| ==> !IsControl(s[i])
  }

  /** a can be obtained from b by deleting characters. */
  ghost predicate IsSubsequence(a: string, b: string)
    decreases |b|
  {
    if |a| == 0 then true
    else if |b| == 0 then false
    else (a[0] == b[0] && IsSubsequence(a[1..], b[1..])) || IsSubsequence(a, b[1..])
  }

  /**
   * re.sub over the control class: deletes exactly the control characters, so
   * the result is a subsequence of the input holding every other character as
   * often as the input does, and none of the control characters.
   */
  function RemoveControl(s: string): (r: string)
    ensures NoControl(r)
  {
    if |s| == 0 then []
    else
      var t := RemoveControl(s[1..]);
      if IsControl(s[0]) then t else [s[0]] + t
  }

  lemma {:induction false} RemoveControlDeletesOnly(s: string)
    ensures IsSubsequence(RemoveControl(s), s)
    ensures forall c :: !IsControl(c) ==> multiset(RemoveControl(s))[c] == multiset(s)[c]
    ensures forall c :: IsControl(c) ==> multiset(RemoveControl(s))[c] == 0
    decreases |s|
  {
    if |s| > 0 {
      var t := RemoveControl(s[1..]);
      RemoveControlDeletesOnly(s[1..]);
      assert s == [s[0]] + s[1..];
      if !IsControl(s[0]) {
        assert ([s[0]] + t)[1..] == t;
      }
    }
  }

  lemma {:induction false} RemoveControlConcat(a: string, b: string)
    ensures RemoveControl(a + b) == RemoveControl(a) + RemoveControl(b)
    decreases |a|
  {
    if |a| > 0 {
      assert (a + b)[1..] == a[1..] + b;
      RemoveControlConcat(a[1..], b);
    } else {
      assert a + b == b;
    }
  }

  /** Text without control characters passes through untouched. */
  lemma {:induction false} RemoveControlNoop(s: string)
    requires NoControl(s)
    ensures RemoveControl(s) == s
    decreases |s|
  {
    if |s| > 0 {
      RemoveControlNoop(s[1..]);
    }
  }

  lemma {:induction false} RemoveControlIdempotent(s: string)
    ensures RemoveControl(RemoveControl(s)) == RemoveControl(s)
  {
    RemoveControlNoop(RemoveControl(s));
  }

  /**
   * sanitize_text: None becomes "", bytes are decoded as UTF-8 with replacement,
   * anything else goes through str(), and the control characters are removed.
   * The "[Binary content of N bytes]" fallback is unreachable: decoding with
   * errors="replace" cannot fail.
   */
  function SanitizeText(v: Value): (r: string)
    ensures v.PyNone? ==> r == ""
    ensures v.PyStr? ==> IsSubsequence(r, v.s)
    ensures v.PyBytes? ==> IsSubsequence(r, Utf8.DecodeReplace(v.bytes))
    ensures !v.PyNone? && !v.PyBytes? ==> IsSubsequence(r, Str(v))
    ensures NoControl(r)
  {
    match v
    case PyNone => ""
    case PyBytes(bs) => RemoveControlDeletesOnly(Utf8.DecodeReplace(bs)); RemoveControl(Utf8.DecodeReplace(bs))
    case _ => RemoveControlDeletesOnly(Str(v)); RemoveControl(Str(v))
  }

  /** Sanitizing an already sanitized string changes nothing. */
  lemma {:induction false} SanitizeIdempotent(v: Value)
    ensures SanitizeText(PyStr(SanitizeText(v))) == SanitizeText(v)
  {
    RemoveControlNoop(SanitizeText(v));
  }

  /** Text that was UTF-8 encoded sanitizes the same as the text itself. */
  lemma {:induction false} SanitizeEncodedText(s: string)
    ensures SanitizeText(PyBytes(Utf8.Encode(s))) == SanitizeText(PyStr(s))
  {
    Utf8.DecodeEncode(s);
  }

  lemma {:induction false} AllControlRemoved(ctl: string)
    requires forall i :: 0 <= i < |ctl| ==> IsControl(ctl[i])
    ensures RemoveControl(ctl) == []
    decreases |ctl|
  {
    if |ctl| > 0 {
      AllControlRemoved(ctl[1..]);
    }
  }

  /** Deleting a run of control characters between two clean texts joins them. */
  lemma {:induction false} DropControlRun(a: string, ctl: string, b: string)
    requires NoControl(a) && NoControl(b)
    requires forall i :: 0 <= i < |ctl| ==> IsControl(ctl[i])
    ensures RemoveControl(a + ctl + b) == a + b
  {
    var x := a + ctl;
    assert RemoveControl(x) == a by {
      RemoveControlConcat(a, ctl);
      RemoveControlNoop(a);
      AllControlRemoved(ctl);
      assert a + [] == a;
    }
    RemoveControlConcat(x, b);
    RemoveControlNoop(b);
  }

  /** Two runs of control characters between three clean texts all vanish. */
  lemma {:induction false} DropTwoControlRuns(a: string, ctl1: string, d: string, ctl2: string, c: string)
    requires NoControl(a) && NoControl(d) && NoControl(c)
    requires forall i :: 0 <= i < |ctl1| ==> IsControl(ctl1[i])
    requires forall i :: 0 <= i < |ctl2| ==> IsControl(ctl2[i])
    ensures RemoveControl(a + ctl1 + (d + ctl2 + c)) == a + (d + c)
  {
    DropControlRun(d, ctl2, c);
    assert NoControl(d + c);
    DropControlRun(a, ctl1, []);
    assert a + ctl1 + [] == a + ctl1;
    RemoveControlConcat(a + ctl1, d + ctl2 + c);
    RemoveControlNoop(d + c);
  }

  lemma {:induction false} TestPiecesClean()
    ensures NoControl("This text has") && NoControl("NUL") && NoControl("control") && NoControl("characters.")
  {
  }

  /** The NUL case of the repository's sanitize test script. */
  lemma {:induction false} SanitizeNulTestCase()
    ensures SanitizeText(PyStr("This text has\0NUL\0characters.")) == "This text hasNULcharacters."
  {
    TestPiecesClean();
    var nul := "\0";
    assert IsControl(nul[0]);
    DropTwoControlRuns("This text has", nul, "NUL", nul, "characters.");
    NulTestLiterals();
  }

  lemma {:induction false} NulTestLiterals()
    ensures "This text has" + "\0" + ("NUL" + "\0" + "characters.") == "This text has\0NUL\0characters."
    ensures "This text has" + ("NUL" + "characters.") == "This text hasNULcharacters."
  {
    NulTestInput();
  }

  lemma {:induction false} NulTestInput()
    ensures "This text has" + "\0" + ("NUL" + "\0" + "characters.") == "This text has\0NUL\0characters."
  {
  }

  /** The other-control-characters case of the same script. */
  lemma {:induction false} SanitizeControlTestCase()
    ensures SanitizeText(PyStr("This text has\U{1}\U{2}\U{3}control\U{4}\U{5}\U{6}characters."))
         == "This text hascontrolcharacters."
  {
    TestPiecesClean();
    var ctl1, ctl2 := "\U{1}\U{2}\U{3}", "\U{4}\U{5}\U{6}";
    assert IsControl(ctl1[0]) && IsControl(ctl1[1]) && IsControl(ctl1[2]);
    assert IsControl(ctl2[0]) && IsControl(ctl2[1]) && IsControl(ctl2[2]);
    DropTwoControlRuns("This text has", ctl1, "control", ctl2, "characters.");
    ControlTestLiterals();
  }

  lemma {:induction false} ControlTestLiterals()
    ensures "This text has" + "\U{1}\U{2}\U{3}" + ("control" + "\U{4}\U{5}\U{6}" + "characters.")
         == "This text has\U{1}\U{2}\U{3}control\U{4}\U{5}\U{6}characters."
    ensures "This text has" + ("control" + "characters.") == "This text hascontrolcharacters."
  {
    ControlTestInput();
  }

  lemma {:induction false} ControlTestInput()
    ensures "This text has" + "\U{1}\U{2}\U{3}" + ("control" + "\U{4}\U{5}\U{6}" + "characters.")
         == "This text has\U{1}\U{2}\U{3}control\U{4}\U{5}\U{6}characters."
  {
  }

  /** ensure_plain_string: the same conversion and deletion as sanitize_text. */
  function EnsurePlainString(v: Value): (r: string)
    ensures NoControl(r)
    ensures v.PyNone? ==> r == ""
    ensures v.PyStr? && NoControl(v.s) ==> r == v.s
  {
    if v.PyStr? && NoControl(v.s) then RemoveControlNoop(v.s); SanitizeText(v) else SanitizeText(v)
  }
}
