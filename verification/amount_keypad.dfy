/** The amount editor of the add-transaction bottom sheet: a string that each
    keypad press rewrites. */
module AmountKeypad {

  const Initial := "0"
  const Clear := "C"
  const Back := "back"

  /** The keys the sheet renders, in order. */
  const Keys: seq<string> := ["1", "2", "3", "4", "5", "6", "7", "8", "9", ".", "0", Back]

  /** The new amount after pressing `key`. */
  function PressKey(amount: string, key: string): (r: string)
    ensures amount != "" && key != "" ==> r != ""
    ensures key == Clear ==> r == Initial
    ensures key == Back ==> (|amount| > 1 ==> r + [amount[|amount| - 1]] == amount) && (|amount| <= 1 ==> r == Initial)
    ensures key != Clear && key != Back ==> r == (if amount == Initial then key else amount + key)
  {
    if key == Clear then Initial
    else if key == Back then (if |amount| > 1 then amount[..|amount| - 1] else Initial)
    else if amount == Initial then key
    else amount + key
  }

  /** Pressing a one-character key and then `back` restores the amount. */
  lemma BackUndoesPress(amount: string, key: string)
    requires amount != ""
    requires |key| == 1 && key != Clear
    ensures PressKey(PressKey(amount, key), Back) == amount
  {
    if amount != Initial {
      assert (amount + key)[..|amount + key| - 1] == amount;
    }
  }

  /** `.` is accepted anywhere, repeatedly: nothing rejects a second point. */
  lemma PointsAreNotRejected()
    ensures PressKey(Initial, ".") == "."
    ensures PressKey(".", ".") == ".."
  {
  }

  /** `C` is not one of the rendered keys, so clearing cannot be reached from
      the keypad; every rendered key is a single character or `back`. */
  lemma ClearIsUnreachable()
    ensures Clear !in Keys
    ensures forall i :: 0 <= i < |Keys| ==> |Keys[i]| == 1 || Keys[i] == Back
  {
  }

  /** The amount after a sequence of presses. */
  function PressAll(amount: string, keys: seq<string>): string
    decreases keys
  {
    if keys == [] then amount else PressAll(PressKey(amount, keys[0]), keys[1..])
  }

  predicate IsAmountChar(c: char) {
    '0' <= c <= '9' || c == '.'
  }

  /** Whatever is typed on the rendered keypad, starting from `0` the amount is a
      non-empty string of digits and points. */
  lemma {:induction false} KeypadAmountsAreNumeric(amount: string, keys: seq<string>)
    requires amount != "" && forall i :: 0 <= i < |amount| ==> IsAmountChar(amount[i])
    requires forall i :: 0 <= i < |keys| ==> keys[i] in Keys
    ensures PressAll(amount, keys) != ""
    ensures forall i :: 0 <= i < |PressAll(amount, keys)| ==> IsAmountChar(PressAll(amount, keys)[i])
    decreases keys
  {
    if keys != [] {
      var next := PressKey(amount, keys[0]);
      assert next != "";
      assert forall i :: 0 <= i < |next| ==> IsAmountChar(next[i]) by {
        if keys[0] != Back && amount != Initial {
          assert next == amount + keys[0];
        }
      }
      KeypadAmountsAreNumeric(next, keys[1..]);
    }
  }

  /** The sheet's `amount` state. */
  class AmountSheet {
    var amount: string

    ghost predicate Valid()
      reads this
    {
      amount != ""
    }

    constructor ()
      ensures Valid() && amount == Initial
    {
      amount := Initial;
    }

    /** Any key string is handled; the amount stays non-empty for non-empty keys,
        which every rendered key is. */
    method HandleKeyPress(key: string)
      requires Valid()
      modifies this
      ensures key != "" ==> Valid()
      ensures amount == PressKey(old(amount), key)
    {
      if key == Clear {
        amount := Initial;
      } else if key == Back {
        amount := if |amount| > 1 then amount[..|amount| - 1] else Initial;
      } else {
        amount := if amount == Initial then key else amount + key;
      }
    }
  }
}
