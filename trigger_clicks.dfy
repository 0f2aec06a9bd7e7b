/** The hidden trigger shared by the two access gates: every click raises a counter, and
    the click that brings it to three opens the gate's modal and puts the counter back to 0. */
module TriggerClicks {

  const CLICKS_TO_OPEN := 3

  /** The counter after a click, and whether that click opens the modal. */
  datatype ClickResult = ClickResult(count: nat, opens: bool)

  /** One click: `next = count + 1`; at three or more the modal opens and the counter is 0,
      otherwise the counter is `next`. */
  function Click(count: nat): (r: ClickResult)
    ensures r.count < CLICKS_TO_OPEN
    ensures r.opens <==> count + 1 >= CLICKS_TO_OPEN
    ensures r.count == if r.opens then 0 else count + 1
  {
    var next := count + 1;
    if next >= CLICKS_TO_OPEN then ClickResult(0, true) else ClickResult(next, false)
  }

  /** The counter after `n` clicks in a row, starting from `count`. */
  function CountAfter(count: nat, n: nat): nat
    decreases n
  {
    if n == 0 then count else CountAfter(Click(count).count, n - 1)
  }

  /** How many of `n` clicks in a row, starting from `count`, open the modal. */
  function OpensAfter(count: nat, n: nat): nat
    decreases n
  {
    if n == 0 then 0
    else (if Click(count).opens then 1 else 0) + OpensAfter(Click(count).count, n - 1)
  }

  /** From a counter below three, `n` clicks leave the counter at `(count + n) % 3` and open
      the modal `(count + n) / 3` times: every third click opens it. */
  lemma {:induction false} ClicksInARow(count: nat, n: nat)
    requires count < CLICKS_TO_OPEN
    ensures CountAfter(count, n) == (count + n) % CLICKS_TO_OPEN
    ensures OpensAfter(count, n) == (count + n) / CLICKS_TO_OPEN
    decreases n
  {
    if n > 0 {
      var c := Click(count);
      ClicksInARow(c.count, n - 1);
      if c.opens {
        assert count == 2 && c.count == 0;
        assert (count + n) % 3 == (n - 1) % 3 && (count + n) / 3 == 1 + (n - 1) / 3;
      } else {
        assert c.count + (n - 1) == count + n;
      }
    }
  }

  /** A fresh trigger opens the modal on the third click and not before. */
  lemma {:induction false} ThirdClickOpens()
    ensures OpensAfter(0, 2) == 0 && OpensAfter(0, 3) == 1 && CountAfter(0, 3) == 0
  {
    ClicksInARow(0, 2);
    ClicksInARow(0, 3);
  }
}
