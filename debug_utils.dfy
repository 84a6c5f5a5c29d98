/** The credit helpers of lib/debug-utils.ts: the amount label, the amount
    check, and the change line and the consistency check of the balance log.
    Amounts are whole numbers here except in the amount check, which exists
    to tell whole numbers apart. */
module DebugUtils {
  import opened Wrappers
  import opened Strings
  import opened Numbers

  /** `formatCredits(credits)`: the number, then "credit", plural unless the
      number is exactly 1. */
  function FormatCredits(credits: int): (r: string)
    ensures StartsWith(r, ShowInt(credits) + " credit")
  {
    ShowInt(credits) + " credit" + (if credits != 1 then "s" else "")
  }

  /** The singular appears for 1 only; 0 and negative amounts are plural. */
  lemma {:induction false} FormatCreditsPlural(credits: int)
    ensures credits == 1 ==> FormatCredits(credits) == "1 credit"
    ensures credits != 1 ==> FormatCredits(credits) == ShowInt(credits) + " credits"
    ensures EndsWith(FormatCredits(credits), "credits") <==> credits != 1
  {
    var r := FormatCredits(credits);
    var n := ShowInt(credits);
    if credits == 1 {
      assert r == "1 credit";
      assert r[|r| - 7..] != "credits" by { assert r[|r| - 7..][0] == ' '; }
    } else {
      assert r == n + " credits";
      assert r[|r| - 7..] == "credits";
    }
  }

  /** The label reads back, with `parseInt`, as the amount it labels. */
  lemma {:induction false} FormatCreditsReads(credits: nat)
    ensures ParseIntPrefix(FormatCredits(credits)) == Some(credits as int)
  {
    var tail := " credit" + (if credits != 1 then "s" else "");
    assert FormatCredits(credits) == Show(credits) + tail;
    NumeralPrefix(credits, tail);
  }

  /** A numeral followed by a non-digit reads as its number. */
  lemma {:induction false} NumeralPrefix(n: nat, tail: string)
    requires tail != [] && !IsDigit(tail[0])
    ensures ParseIntPrefix(Show(n) + tail) == Some(n as int)
  {
    var s := Show(n) + tail;
    assert TrimStart(s) == s by { assert s[0] == Show(n)[0]; }
    DigitRunPrefix(Show(n), tail);
    ShowValue(n);
  }

  lemma {:induction false} DigitRunPrefix(d: string, tail: string)
    requires AllDigits(d)
    requires tail != [] && !IsDigit(tail[0])
    ensures DigitRun(d + tail) == d
    decreases |d|
  {
    if d == [] {
    } else {
      DigitRunPrefix(d[1..], tail);
      assert (d + tail)[1..] == d[1..] + tail;
      assert d == [d[0]] + d[1..];
    }
  }

  /** `validateCreditAmount(amount)`: a positive whole number. */
  predicate ValidateCreditAmount(amount: real)
  {
    amount.Floor as real == amount && amount > 0.0
  }

  /** On whole numbers the check is positivity; a fraction never passes,
      and a passing amount is at least 1. */
  lemma {:induction false} ValidAmounts(n: int, amount: real)
    ensures ValidateCreditAmount(n as real) <==> n > 0
    ensures ValidateCreditAmount(amount) ==> amount >= 1.0 && amount == amount.Floor as real
    ensures amount != amount.Floor as real ==> !ValidateCreditAmount(amount)
  {
    assert (n as real).Floor == n;
  }

  datatype Operation = Add | Deduct

  /** The signed amount the log prints. */
  function ChangeText(op: Operation, amount: int): (r: string)
    ensures |r| >= 1 && r[0] == (if op == Add then '+' else '-') && r[1..] == ShowInt(amount)
  {
    (if op == Add then "+" else "-") + ShowInt(amount)
  }

  /** The signed change reads back as the amount with the operation's sign
      (for a non-negative amount). */
  lemma {:induction false} ChangeTextReads(op: Operation, amount: nat)
    ensures ParseInt(ChangeText(op, amount)) == Some(if op == Add then amount as int else -(amount as int))
  {
    var r := ChangeText(op, amount);
    ShowValue(amount);
    assert r[1..] == Show(amount);
  }

  /** The consistency check the log prints. */
  predicate Applied(op: Operation, amount: int, oldBalance: int, newBalance: int)
  {
    newBalance == oldBalance + (if op == Add then amount else -(amount as int))
  }

  /** The check holds exactly when the balance moved by the amount in the
      operation's direction; an add and a deduct of the same non-zero
      amount cannot both hold. */
  lemma {:induction false} AppliedMeansMoved(op: Operation, amount: int, oldBalance: int, newBalance: int)
    ensures Applied(Add, amount, oldBalance, newBalance) <==> newBalance - oldBalance == amount
    ensures Applied(Deduct, amount, oldBalance, newBalance) <==> oldBalance - newBalance == amount
    ensures amount != 0 ==> !(Applied(Add, amount, oldBalance, newBalance) && Applied(Deduct, amount, oldBalance, newBalance))
  {
  }
}
