/**
 * The logic of the client order lookup page (`frontend/src/pages/ClientSpacePage.tsx`):
 * the guard in front of the search request and the four-step progress bar drawn
 * for each order. The request itself is I/O and not modelled.
 */
module ClientSpace {
  import opened Common
  import opened Text

  /** `handleSearch`: an e-mail field that is empty after trimming sends nothing
      (`None`); otherwise the trimmed e-mail is what the request carries. */
  function SearchEmail(email: string): (r: Option<string>)
    ensures r.None? <==> forall i :: 0 <= i < |email| ==> IsSpace(email[i])
    ensures r.Some? ==> r.value == Trim(email) && r.value != ""
    ensures r.Some? ==> !IsSpace(r.value[0]) && !IsSpace(r.value[|r.value| - 1])
    ensures r.Some? ==> exists i :: 0 <= i <= |email| - |r.value| && r.value <= email[i..]
  {
    var trimmed := Trim(email);
    if trimmed == "" then None else Some(trimmed)
  }

  /** The steps of the progress bar, in order. */
  const Steps: seq<string> := ["pending", "confirmed", "in_progress", "completed"]

  /** `Array.prototype.indexOf`: the first position holding `x`, or -1. */
  function PositionOf(xs: seq<string>, x: string): (r: int)
    ensures r == -1 <==> x !in xs
    ensures r != -1 ==> 0 <= r < |xs| && xs[r] == x && x !in xs[..r]
  {
    if |xs| == 0 then -1
    else if xs[0] == x then 0
    else
      var k := PositionOf(xs[1..], x);
      if k == -1 then -1
      else
        assert xs[1..][..k] == xs[1..k + 1];
        assert xs[..k + 1] == [xs[0]] + xs[1..k + 1];
        k + 1
  }

  /** Where each status sits on the bar; `cancelled` is not on it. */
  lemma StepPositions()
    ensures PositionOf(Steps, "pending") == 0 && PositionOf(Steps, "confirmed") == 1
    ensures PositionOf(Steps, "in_progress") == 2 && PositionOf(Steps, "completed") == 3
    ensures PositionOf(Steps, "cancelled") == -1
  {
  }

  /** Whether the `i`-th segment of the bar is filled for an order in `status`: up to
      and including the status's own step, and never for a cancelled order. */
  predicate IsDone(status: string, i: int)
    ensures 0 <= i < |Steps| ==> (IsDone(status, i) <==> status in Steps[i..])
  {
    StepPositions();
    i <= PositionOf(Steps, status) && status != "cancelled"
  }

  /** The filled segments of the bar: segment `i` is filled exactly when the order's
      status is step `i` or a later one. */
  function DoneSteps(status: string): (r: seq<bool>)
    ensures |r| == |Steps|
    ensures forall i :: 0 <= i < |Steps| ==> (r[i] <==> status in Steps[i..])
  {
    seq(|Steps|, i requires 0 <= i < |Steps| => IsDone(status, i))
  }

  /** For a status on the bar at step `k`, exactly the segments 0 to `k` are filled. */
  lemma DoneUpToOwnStep(k: nat)
    requires k < |Steps|
    ensures forall i :: 0 <= i < |Steps| ==> (DoneSteps(Steps[k])[i] <==> i <= k)
  {
    assert Steps[k] != "cancelled";
    assert PositionOf(Steps, Steps[k]) == k;
  }

  /** A cancelled order, or one whose status is not on the bar, shows no filled segment. */
  lemma OffBarShowsNothing(status: string)
    requires status == "cancelled" || status !in Steps
    ensures DoneSteps(status) == [false, false, false, false]
  {
  }
}
