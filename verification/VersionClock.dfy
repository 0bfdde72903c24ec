/** The detector's version clock: a clock that ticks on every write fault, a version per page, and page protection. */
module VersionClock {

  /** `pver` has a version for each tracked page; `writable` is the protection of each page of the regions. */
  datatype Det = Det(clk: nat, pver: seq<nat>, writable: seq<bool>, conflicts: nat, faults: nat)

  function Protected(d: Det): Det
  {
    d.(writable := seq(|d.writable|, _ => false))
  }

  /** The page is protected and tracked, and was written since the fiber that is active now parked at `park`. */
  predicate Stale(d: Det, p: nat, active: bool, park: nat)
  {
    p < |d.pver| && active && d.pver[p] > park
  }

  /** What the handler does for a write fault on page p. */
  function Fault(d: Det, p: nat, active: bool, park: nat): Det
    requires p < |d.writable|
  {
    var d1 := d.(faults := d.faults + 1, writable := d.writable[p := true]);
    if p >= |d.pver| then d1
    else d1.(clk := d.clk + 1, pver := d.pver[p := d.clk + 1],
             conflicts := d.conflicts + if Stale(d, p, active, park) then 1 else 0)
  }

  /** A store to page p: a fault if the page is protected, nothing the detector sees otherwise. */
  function Stored(d: Det, p: nat, active: bool, park: nat): Det
    requires p < |d.writable|
  {
    if d.writable[p] then d else Fault(d, p, active, park)
  }
}
