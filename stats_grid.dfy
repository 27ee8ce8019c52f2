/** `StatsGrid.tsx`: one card per status, in the order Applied, Interview,
    Offer, Rejected, each showing how many jobs have that status and
    highlighted when it is the current filter. Clicking a card sets the
    filter to its status, or back to "All" when it was already selected.
    Colours and icons are left out. */
module StatsGrid {
  import opened Schema
  import opened ClientTypes
  import Seqs

  /** `jobs.filter((j) => j.status === status).length`. */
  function Count(jobs: seq<Job>, s: Status): (n: nat)
    ensures n <= |jobs|
    ensures n == 0 <==> forall j :: j in jobs ==> j.status != s
  {
    var kept := Seqs.Keep(jobs, (j: Job) => j.status == s);
    assert kept != [] ==> kept[0] in kept;
    |kept|
  }

  /** Counting looks at the first job and then the rest. */
  lemma CountStep(jobs: seq<Job>, s: Status)
    requires jobs != []
    ensures Count(jobs, s) == (if jobs[0].status == s then 1 else 0) + Count(jobs[1..], s)
  {
  }

  /** Every job is counted on exactly one card: the four counts add up to
      the number of jobs. */
  lemma {:induction false} CountsSumToTotal(jobs: seq<Job>)
    ensures Count(jobs, Applied) + Count(jobs, Interview) + Count(jobs, Offer) + Count(jobs, Rejected) == |jobs|
  {
    if jobs != [] {
      CountStep(jobs, Applied);
      CountStep(jobs, Interview);
      CountStep(jobs, Offer);
      CountStep(jobs, Rejected);
      CountsSumToTotal(jobs[1..]);
    }
  }

  /** A rendered card: its status, its count and whether it is selected. */
  datatype Card = Card(status: Status, count: nat, selected: bool)

  /** The cards for `jobs` under the filter text `filterStatus`. */
  function Cards(jobs: seq<Job>, filterStatus: string): (cards: seq<Card>)
    ensures |cards| == |StatusOrder|
    ensures forall i :: 0 <= i < |cards| ==>
      cards[i].status == StatusOrder[i] && cards[i].count == Count(jobs, StatusOrder[i])
    ensures forall i :: 0 <= i < |cards| ==> (cards[i].selected <==> filterStatus == StatusText(StatusOrder[i]))
  {
    seq(|StatusOrder|, (i: int) requires 0 <= i < |StatusOrder| =>
      Card(StatusOrder[i], Count(jobs, StatusOrder[i]), filterStatus == StatusText(StatusOrder[i])))
  }

  /** At most one card is selected, and one is exactly when the filter names
      a status; under "All" none is. */
  lemma AtMostOneSelected(jobs: seq<Job>, filterStatus: string)
    ensures forall i, j :: 0 <= i < j < |StatusOrder| ==>
      !(Cards(jobs, filterStatus)[i].selected && Cards(jobs, filterStatus)[j].selected)
    ensures (exists i :: 0 <= i < |StatusOrder| && Cards(jobs, filterStatus)[i].selected) <==>
      ParseStatus(filterStatus).Some?
  {
    var cards := Cards(jobs, filterStatus);
    forall i, j | 0 <= i < j < |StatusOrder| ensures !(cards[i].selected && cards[j].selected) {
      if cards[i].selected && cards[j].selected {
        StatusRoundTrip(StatusOrder[i]);
        StatusRoundTrip(StatusOrder[j]);
        StatusOrderListsEachOnce(StatusOrder[i]);
      }
    }
    var parsed := ParseStatus(filterStatus);
    if parsed.Some? {
      StatusOrderListsEachOnce(parsed.value);
      var k :| 0 <= k < |StatusOrder| && StatusOrder[k] == parsed.value;
      assert cards[k].selected;
    }
    if exists i :: 0 <= i < |StatusOrder| && cards[i].selected {
      var i :| 0 <= i < |StatusOrder| && cards[i].selected;
      StatusRoundTrip(StatusOrder[i]);
    }
  }

  /** The filter a click on `card` sets. */
  function Clicked(card: Card): (f: JobStatus)
    ensures card.selected <==> f == All
    ensures !card.selected ==> f == Only(card.status)
  {
    if card.selected then All else Only(card.status)
  }

  /** Clicking the same card twice restores the filter when it was "All"
      or that card's status. */
  lemma ClickTwiceRestores(jobs: seq<Job>, f: JobStatus, i: nat)
    requires i < |StatusOrder|
    requires f == All || f == Only(StatusOrder[i])
    ensures var once := Clicked(Cards(jobs, JobStatusText(f))[i]);
      Clicked(Cards(jobs, JobStatusText(once))[i]) == f
  {
    StatusRoundTrip(StatusOrder[i]);
  }

  /** From another status, two clicks on a card end at "All". */
  lemma ClickTwiceFromOtherStatus(jobs: seq<Job>, s: Status, i: nat)
    requires i < |StatusOrder| && s != StatusOrder[i]
    ensures var once := Clicked(Cards(jobs, StatusText(s))[i]);
      once == Only(StatusOrder[i]) && Clicked(Cards(jobs, JobStatusText(once))[i]) == All
  {
    StatusRoundTrip(s);
    StatusRoundTrip(StatusOrder[i]);
  }
}
