/**
 * The technician list (GET /technicians): every technician with the number of
 * requests assigned to them that are scheduled or in progress, ordered by name.
 */
module Roster {
  import opened Base
  import opened Ordering
  import opened Records

  /** A request that counts as an active job of technician `techId`. */
  function ActiveFor(techId: nat): ServiceRequest -> bool {
    (r: ServiceRequest) => r.assignedTech == Some(techId) && (r.status == Scheduled || r.status == InProgress)
  }

  /** COUNT(sr.request_id) over the LEFT JOIN: zero when nothing matches. */
  function ActiveJobs(rows: seq<ServiceRequest>, techId: nat): nat {
    Count(rows, ActiveFor(techId))
  }

  datatype TechnicianLoad = TechnicianLoad(tech: Technician, activeJobs: nat)

  /** Names compare character by character, by character code; a proper prefix comes first. */
  predicate NameLeq(a: string, b: string) {
    |a| == 0 || (|b| > 0 && (a[0] < b[0] || (a[0] == b[0] && NameLeq(a[1..], b[1..]))))
  }

  function NameKey(name: string): (k: seq<Ext>)
    ensures |k| == |name|
  {
    seq(|name|, i requires 0 <= i < |name| => Fin(name[i] as int))
  }

  lemma {:induction false} NameKeyOrder(a: string, b: string)
    ensures LexLeq(NameKey(a), NameKey(b)) <==> NameLeq(a, b)
  {
    if |a| > 0 && |b| > 0 {
      assert NameKey(a)[1..] == NameKey(a[1..]);
      assert NameKey(b)[1..] == NameKey(b[1..]);
      NameKeyOrder(a[1..], b[1..]);
    }
  }

  function LoadKey(l: TechnicianLoad): seq<Ext> {
    NameKey(l.tech.name)
  }

  function Loads(techs: seq<Technician>, rows: seq<ServiceRequest>): seq<TechnicianLoad> {
    seq(|techs|, k requires 0 <= k < |techs| => TechnicianLoad(techs[k], ActiveJobs(rows, techs[k].techId)))
  }

  /** GET /technicians. */
  function TechnicianList(techs: seq<Technician>, rows: seq<ServiceRequest>): (out: seq<TechnicianLoad>)
    requires UniqueTechIds(techs)
    ensures |out| == |techs|
    ensures forall e :: e in out ==> e.tech in techs && e.activeJobs == ActiveJobs(rows, e.tech.techId)
    ensures forall t :: t in techs ==> TechnicianLoad(t, ActiveJobs(rows, t.techId)) in out
    ensures forall i, j :: 0 <= i < j < |out| ==> NameLeq(out[i].tech.name, out[j].tech.name)
  {
    var loads := Loads(techs, rows);
    SortByCorrect(loads, LoadKey);
    var out := SortBy(loads, LoadKey);
    SortedAllPairs(out, LoadKey);
    LoadsArePermuted(out, loads, techs, rows);
    NamesOrdered(out);
    out
  }

  lemma LoadsArePermuted(out: seq<TechnicianLoad>, loads: seq<TechnicianLoad>, techs: seq<Technician>,
                         rows: seq<ServiceRequest>)
    requires loads == Loads(techs, rows)
    requires multiset(out) == multiset(loads)
    ensures forall e :: e in out ==> e.tech in techs && e.activeJobs == ActiveJobs(rows, e.tech.techId)
    ensures forall t :: t in techs ==> TechnicianLoad(t, ActiveJobs(rows, t.techId)) in out
  {
    forall e | e in out ensures e.tech in techs && e.activeJobs == ActiveJobs(rows, e.tech.techId) {
      assert e in multiset(loads);
    }
    forall t | t in techs ensures TechnicianLoad(t, ActiveJobs(rows, t.techId)) in out {
      var k :| 0 <= k < |techs| && techs[k] == t;
      assert loads[k] in multiset(out);
    }
  }

  lemma NamesOrdered(out: seq<TechnicianLoad>)
    requires forall i, j :: 0 <= i < j < |out| ==> LexLeq(LoadKey(out[i]), LoadKey(out[j]))
    ensures forall i, j :: 0 <= i < j < |out| ==> NameLeq(out[i].tech.name, out[j].tech.name)
  {
    forall i, j | 0 <= i < j < |out| ensures NameLeq(out[i].tech.name, out[j].tech.name) {
      NameKeyOrder(out[i].tech.name, out[j].tech.name);
    }
  }

  /**
   * Replacing a request by one that `techId` now holds as an active job raises
   * that technician's count by one, unless the old request already counted.
   */
  lemma {:induction false} ActiveJobsGained(rows: seq<ServiceRequest>, i: nat, y: ServiceRequest, techId: nat)
    requires i < |rows|
    requires y.assignedTech == Some(techId) && y.status == Scheduled
    ensures ActiveJobs(rows[i := y], techId) == ActiveJobs(rows, techId) + (if ActiveFor(techId)(rows[i]) then 0 else 1)
  {
    CountUpdate(rows, i, y, ActiveFor(techId));
  }

  /** Every other technician loses the request if it was one of their active jobs. */
  lemma {:induction false} ActiveJobsLost(rows: seq<ServiceRequest>, i: nat, y: ServiceRequest, other: nat)
    requires i < |rows|
    requires y.assignedTech != Some(other)
    ensures ActiveJobs(rows[i := y], other) == ActiveJobs(rows, other) - (if ActiveFor(other)(rows[i]) then 1 else 0)
  {
    CountUpdate(rows, i, y, ActiveFor(other));
  }
}
