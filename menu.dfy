/**
 * The nebula menu (`escolher_nebulosa`): the answer to the numbered menu
 * picks a catalogue entry, asks for a name typed by hand, or is rejected
 * and the menu is shown again.
 *
 * The console is a parameter: the sequence of lines the user answers with.
 */
module Menu {
  import opened Wrappers
  import opened Text
  import opened Catalog

  /** What one answer to the menu means. */
  datatype MenuChoice = Manual | Entry(name: string) | Invalid

  /** The decision of lines 229-235: the answer must be all ASCII digits (it
      is not stripped first); 0 asks for a name, a menu number picks that
      entry, and anything else is rejected. */
  function Choose(answer: string): (c: MenuChoice)
    ensures c == Manual <==> IsDigits(answer) && DigitsValue(answer) == 0
    ensures c.Entry? <==> IsDigits(answer) && DigitsValue(answer) in Nebulae
    ensures c.Entry? ==> c.name == Nebulae[DigitsValue(answer)]
  {
    if IsDigits(answer) then
      var n := DigitsValue(answer);
      if n == 0 then Manual
      else if n in Nebulae then Entry(Nebulae[n])
      else Invalid
    else Invalid
  }

  /** The menu numbers are exactly 1 to 10. */
  lemma MenuNumbers()
    ensures forall n :: n in Nebulae <==> 1 <= n <= 10
  {
  }

  /** An answer is rejected exactly when it is not all digits or names a
      number outside 0 to 10. */
  lemma ChooseInvalidIff(answer: string)
    ensures Choose(answer) == Invalid <==>
      !IsDigits(answer) || DigitsValue(answer) > 10
  {
  }

  /** The nebula finally chosen when the user answers with `answers`, one
      line per prompt: rejected answers show the menu again (the recursion of
      line 236), an answer of 0 takes the next line, stripped, as the name.
      `None` when the answers run out before a name is chosen: every answer
      but the last is rejected, and the last is no menu entry. */
  function ChooseNebula(answers: seq<string>): (r: Option<string>)
    ensures r.None? <==>
      && (forall k :: 0 <= k < |answers| - 1 ==> Choose(answers[k]) == Invalid)
      && (answers == [] || !Choose(answers[|answers| - 1]).Entry?)
    decreases |answers|
  {
    if answers == [] then None
    else
      match Choose(answers[0])
      case Entry(name) => Some(name)
      case Manual => if |answers| >= 2 then Some(Strip(answers[1])) else None
      case Invalid => ChooseNebula(answers[1..])
  }

  /** Rejected answers are skipped: the choice is that of the first answer
      that is not rejected. */
  lemma {:induction false} ChooseNebulaSkips(invalid: seq<string>, rest: seq<string>)
    requires forall k :: 0 <= k < |invalid| ==> Choose(invalid[k]) == Invalid
    ensures ChooseNebula(invalid + rest) == ChooseNebula(rest)
  {
    if invalid != [] {
      assert (invalid + rest)[0] == invalid[0];
      assert (invalid + rest)[1..] == invalid[1..] + rest;
      ChooseNebulaSkips(invalid[1..], rest);
    } else {
      assert invalid + rest == rest;
    }
  }

  /** The name chosen is decided by the first answer that is not rejected:
      a menu number gives that entry, and a 0 gives the line after it,
      stripped (lines 231-234). */
  lemma ChooseNebulaFirstAccepted(invalid: seq<string>, a: string, rest: seq<string>)
    requires forall k :: 0 <= k < |invalid| ==> Choose(invalid[k]) == Invalid
    requires Choose(a) != Invalid
    ensures ChooseNebula(invalid + [a] + rest) ==
      if Choose(a).Entry? then Some(Choose(a).name)
      else if rest != [] then Some(Strip(rest[0]))
      else None
  {
    assert invalid + [a] + rest == invalid + ([a] + rest);
    ChooseNebulaSkips(invalid, [a] + rest);
    assert ([a] + rest)[0] == a && ([a] + rest)[1..] == rest;
  }

  /** Answer "3" picks the Ring Nebula; " 3" (with a space) is rejected, since
      the answer is not stripped before the digit test. */
  lemma ChooseExamples(three: string, spaced: string)
    requires three == "3" && spaced == " 3"
    ensures Choose(three) == Entry("Ring Nebula")
    ensures Choose(spaced) == Invalid
  {
  }
}
