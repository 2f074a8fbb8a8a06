/** Splitting a span of time into bounded windows (collectors/onedrive_audit.py). */
module AuditWindows {
  import opened Basics

  type Window = (int, int)

  /** `ws` cuts [start, end) into adjacent pieces, each full length but the last. */
  ghost predicate Tiles(ws: seq<Window>, start: int, end: int, maximum: int) {
    && |ws| > 0
    && ws[0].0 == start && ws[|ws| - 1].1 == end
    && (forall i | 0 <= i < |ws| - 1 :: ws[i].1 == ws[i + 1].0)
    && (forall i | 0 <= i < |ws| :: 0 < ws[i].1 - ws[i].0 <= maximum)
    && (forall i | 0 <= i < |ws| - 1 :: ws[i].1 - ws[i].0 == maximum)
  }

  datatype WindowError = InvalidWindow

  method BoundedWindows(start: int, end: int, maximum: int) returns (r: Result<seq<Window>, WindowError>)
    ensures r.Raise? <==> end <= start || maximum <= 0
    ensures r.Ok? ==> Tiles(r.value, start, end, maximum)
    // As many windows as the span divided by the maximum, rounded up.
    ensures r.Ok? ==> (|r.value| - 1) * maximum < end - start <= |r.value| * maximum
  {
    if end <= start || maximum <= 0 {
      return Raise(InvalidWindow);
    }
    var windows: seq<Window> := [];
    var cursor := start;
    hide Tiles;
    while cursor < end
      invariant start <= cursor <= end
      invariant windows == [] <==> cursor == start
      invariant windows != [] ==> Tiles(windows, start, cursor, maximum)
      invariant windows != [] && cursor < end ==> windows[|windows| - 1].1 - windows[|windows| - 1].0 == maximum
      invariant cursor < end ==> cursor == start + |windows| * maximum
      invariant cursor == end ==> (|windows| - 1) * maximum < end - start <= |windows| * maximum
    {
      var finish := Min(cursor + maximum, end);
      assert (|windows| + 1) * maximum == |windows| * maximum + maximum;
      OneMore(windows, start, cursor, finish, maximum);
      windows := windows + [(cursor, finish)];
      cursor := finish;
    }
    r := Ok(windows);
  }

  lemma OneMore(ws: seq<Window>, start: int, cursor: int, finish: int, maximum: int)
    requires ws == [] ==> cursor == start
    requires ws != [] ==> Tiles(ws, start, cursor, maximum) && ws[|ws| - 1].1 - ws[|ws| - 1].0 == maximum
    requires 0 < finish - cursor <= maximum
    ensures Tiles(ws + [(cursor, finish)], start, finish, maximum)
  {
  }

  /** Nothing in the span falls between windows: each instant lies in a window. */
  lemma {:induction false} EveryInstantHasAWindow(ws: seq<Window>, start: int, end: int, maximum: int, t: int)
    returns (k: nat)
    requires Tiles(ws, start, end, maximum) && start <= t < end
    ensures k < |ws| && ws[k].0 <= t < ws[k].1
  {
    k := 0;
    while ws[k].1 <= t
      invariant k < |ws| && ws[k].0 <= t
      decreases |ws| - k
    {
      assert k < |ws| - 1;
      k := k + 1;
    }
  }

  /** ... and windows never overlap. */
  lemma {:induction false} WindowsDisjoint(ws: seq<Window>, start: int, end: int, maximum: int, i: nat, j: nat)
    requires Tiles(ws, start, end, maximum) && i < j < |ws|
    ensures ws[i].1 <= ws[j].0
    decreases j
  {
    if i < j - 1 { WindowsDisjoint(ws, start, end, maximum, i, j - 1); }
  }

  /** ... and lie within the span. */
  lemma WindowsWithin(ws: seq<Window>, start: int, end: int, maximum: int, i: nat)
    requires Tiles(ws, start, end, maximum) && i < |ws|
    ensures start <= ws[i].0 < ws[i].1 <= end
  {
    if i > 0 { WindowsDisjoint(ws, start, end, maximum, 0, i); }
    if i < |ws| - 1 { WindowsDisjoint(ws, start, end, maximum, i, |ws| - 1); }
  }
}
