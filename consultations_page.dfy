/** The consultations page's list logic: the status filter behind the list,
    the per-status badge counts, and the badge colour of a status. */
module ConsultationsPage {
  import opened Js

  /** A consultation as the page reads it; `status` may be missing. */
  datatype Consultation = Consultation(_id: string, status: JsStr)

  /** The filter value that shows everything. */
  const AllFilter := "all"

  /** `consultation.status === filter`: a missing status matches no filter. */
  predicate HasStatus(c: Consultation, status: string) {
    c.status == Some(status)
  }

  /** `consultations.filter(c => c.status === status)`. */
  function WithStatus(cs: seq<Consultation>, status: string): (r: seq<Consultation>)
    ensures |r| <= |cs|
  {
    if cs == [] then []
    else (if HasStatus(cs[0], status) then [cs[0]] else []) + WithStatus(cs[1..], status)
  }

  /** `filteredConsultations`: everything for "all", otherwise the
      consultations with that status. */
  function Filtered(cs: seq<Consultation>, filter: string): (r: seq<Consultation>)
    ensures filter == AllFilter ==> r == cs
  {
    if filter == AllFilter then cs else WithStatus(cs, filter)
  }

  /** `a` is `b` with some elements left out, the rest in their order. */
  predicate Subsequence(a: seq<Consultation>, b: seq<Consultation>)
    decreases |b|
  {
    a == [] ||
    (b != [] && ((a[0] == b[0] && Subsequence(a[1..], b[1..])) || Subsequence(a, b[1..])))
  }

  /** A filtered list keeps exactly the consultations with that status, in
      their original order: every element comes from the list and matches,
      every matching element of the list is kept. */
  lemma {:induction false} WithStatusSpec(cs: seq<Consultation>, status: string)
    ensures Subsequence(WithStatus(cs, status), cs)
    ensures forall c :: c in WithStatus(cs, status) <==> c in cs && HasStatus(c, status)
    ensures multiset(WithStatus(cs, status)) <= multiset(cs)
    decreases |cs|
  {
    if cs != [] {
      WithStatusSpec(cs[1..], status);
      var rest := WithStatus(cs[1..], status);
      assert cs == [cs[0]] + cs[1..];
      if HasStatus(cs[0], status) {
        assert WithStatus(cs, status) == [cs[0]] + rest;
        assert ([cs[0]] + rest)[1..] == rest;
      } else {
        assert WithStatus(cs, status) == rest;
      }
    }
  }

  /** The number shown on a status badge. */
  function BadgeCount(cs: seq<Consultation>, status: string): (n: nat)
    ensures n <= |cs|
  {
    |WithStatus(cs, status)|
  }

  /** The number shown on the "All" badge. */
  function AllCount(cs: seq<Consultation>): (n: nat)
    ensures n == |Filtered(cs, AllFilter)|
  {
    |cs|
  }

  /** Each badge counts what its filter shows (for "all" the total), and it
      counts the occurrences of that status among the consultations. */
  lemma {:induction false} BadgeCountSpec(cs: seq<Consultation>, status: string)
    ensures status != AllFilter ==> BadgeCount(cs, status) == |Filtered(cs, status)|
    ensures BadgeCount(cs, status) == multiset(Statuses(cs))[Some(status)]
    decreases |cs|
  {
    if cs != [] {
      BadgeCountSpec(cs[1..], status);
      assert Statuses(cs) == [cs[0].status] + Statuses(cs[1..]);
    }
  }

  /** The statuses of the consultations, in order. */
  function Statuses(cs: seq<Consultation>): (r: seq<JsStr>)
    ensures |r| == |cs|
  {
    if cs == [] then [] else [cs[0].status] + Statuses(cs[1..])
  }

  /** The three status badges never count more than the "All" badge: each
      consultation has one status. */
  lemma {:induction false} BadgesWithinTotal(cs: seq<Consultation>)
    ensures BadgeCount(cs, "scheduled") + BadgeCount(cs, "completed") + BadgeCount(cs, "cancelled") <= AllCount(cs)
    decreases |cs|
  {
    if cs != [] {
      BadgesWithinTotal(cs[1..]);
    }
  }

  const CompletedColor := "bg-green-100 text-green-800"
  const ScheduledColor := "bg-blue-100 text-blue-800"
  const InProgressColor := "bg-yellow-100 text-yellow-800"
  const CancelledColor := "bg-red-100 text-red-800"
  const DefaultColor := "bg-gray-100 text-gray-800"

  /** `getStatusColor`. */
  function StatusColor(status: JsStr): (r: string)
    ensures status == Some("completed") ==> r == CompletedColor
    ensures status == Some("scheduled") ==> r == ScheduledColor
    ensures status == Some("in-progress") ==> r == InProgressColor
    ensures status == Some("cancelled") ==> r == CancelledColor
    ensures status !in {Some("completed"), Some("scheduled"), Some("in-progress"), Some("cancelled")} ==> r == DefaultColor
  {
    if status == Some("completed") then CompletedColor
    else if status == Some("scheduled") then ScheduledColor
    else if status == Some("in-progress") then InProgressColor
    else if status == Some("cancelled") then CancelledColor
    else DefaultColor
  }

  /** Only an unknown or missing status gets the gray default. */
  lemma StatusColorDefault(status: JsStr)
    ensures StatusColor(status) == DefaultColor <==>
              status !in {Some("completed"), Some("scheduled"), Some("in-progress"), Some("cancelled")}
  {
    assert CompletedColor[5] == 'e' && ScheduledColor[3] == 'b' && InProgressColor[3] == 'y';
    assert CancelledColor[3] == 'r' && DefaultColor[3] == 'g' && DefaultColor[5] == 'a';
  }
}
