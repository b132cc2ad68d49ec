/**
 * Dashboard counters (GET /stats), taken over the requests whose status is not
 * cancelled. `today` stands for CURRENT_DATE.
 */
module Stats {
  import opened Base
  import opened Records

  datatype DashboardStats = DashboardStats(
    pending: nat, scheduled: nat, inProgress: nat,
    completedToday: nat, scheduledToday: nat, scheduledTomorrow: nat)

  /** WHERE status != 'cancelled'. */
  predicate IsLive(r: ServiceRequest) { r.status != Cancelled }

  predicate LivePending(r: ServiceRequest) { IsLive(r) && r.status == Pending }
  predicate LiveScheduled(r: ServiceRequest) { IsLive(r) && r.status == Scheduled }
  predicate LiveInProgress(r: ServiceRequest) { IsLive(r) && r.status == InProgress }
  predicate LiveCompleted(r: ServiceRequest) { IsLive(r) && r.status == Completed }

  /** Scheduled or in progress. */
  predicate LiveDispatched(r: ServiceRequest) { LiveScheduled(r) || LiveInProgress(r) }
  /** Pending, scheduled or in progress. */
  predicate LiveOpen(r: ServiceRequest) { LivePending(r) || LiveDispatched(r) }

  /** status = 'completed' AND DATE(updated_at) = day. */
  function CompletedOn(day: Date): ServiceRequest -> bool {
    (r: ServiceRequest) => LiveCompleted(r) && DayOf(r.updatedAt) == day
  }

  /** scheduled_date = day, whatever the (non-cancelled) status. */
  function ScheduledFor(day: Date): ServiceRequest -> bool {
    (r: ServiceRequest) => IsLive(r) && r.scheduledDate == Some(day)
  }

  /** GET /stats. */
  function DashboardCounts(rows: seq<ServiceRequest>, today: Date): (st: DashboardStats)
    ensures st.pending + st.scheduled + st.inProgress + Count(rows, LiveCompleted) == Count(rows, IsLive)
    ensures st.pending + st.scheduled + st.inProgress <= Count(rows, IsLive)
    ensures st.completedToday <= Count(rows, LiveCompleted)
    ensures st.scheduledToday + st.scheduledTomorrow <= Count(rows, IsLive)
  {
    var st := DashboardStats(
      Count(rows, LivePending), Count(rows, LiveScheduled), Count(rows, LiveInProgress),
      Count(rows, CompletedOn(today)), Count(rows, ScheduledFor(today)), Count(rows, ScheduledFor(today + 1)));
    CountSplit(rows, IsLive, LiveOpen, LiveCompleted);
    CountSplit(rows, LiveOpen, LivePending, LiveDispatched);
    CountSplit(rows, LiveDispatched, LiveScheduled, LiveInProgress);
    CountMonotone(rows, CompletedOn(today), LiveCompleted);
    DayCountsDisjoint(rows, today);
    st
  }

  lemma DayCountsDisjoint(rows: seq<ServiceRequest>, today: Date)
    ensures Count(rows, ScheduledFor(today)) + Count(rows, ScheduledFor(today + 1)) <= Count(rows, IsLive)
  {
    var either := (r: ServiceRequest) => ScheduledFor(today)(r) || ScheduledFor(today + 1)(r);
    CountSplit(rows, either, ScheduledFor(today), ScheduledFor(today + 1));
    CountMonotone(rows, either, IsLive);
  }
}
