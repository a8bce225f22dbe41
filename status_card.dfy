/** The status mappings of the query card (src/components/Card.tsx): the card colour, the
    icon, and the status chip's colour and label. */
module StatusCard {
  import opened Common
  import opened Strings

  /** CardProps["status"]. */
  datatype Status = Ok | Idle | Failed | Queued | Finished | Unknown

  const ALL_STATUSES: seq<Status> := [Ok, Idle, Failed, Queued, Finished, Unknown]

  /** The string the status stands for. */
  function StatusName(s: Status): string {
    match s
    case Ok => "ok"
    case Idle => "idle"
    case Failed => "failed"
    case Queued => "queued"
    case Finished => "finished"
    case Unknown => "unknown"
  }

  /** setStatusColor. */
  function StatusColor(s: Status): string {
    match s
    case Queued => "#ffffff"
    case Failed => "#c60101"
    case Idle => "#f0e806"
    case Ok => "#22c601"
    case Finished => "#608dff"
    case Unknown => "#cdcdcd"
  }

  /** No two statuses share a colour, so the colour tells the status. */
  lemma StatusColorDistinct(a: Status, b: Status)
    ensures StatusColor(a) == StatusColor(b) <==> a == b
  {
  }

  datatype StatusIcon = HourglassBottom | SentimentVeryDissatisfied | SentimentNeutral
                      | SentimentSatisfiedAlt | Check | QuestionMark

  /** setStatusIcon. */
  function IconOf(s: Status): StatusIcon {
    match s
    case Queued => HourglassBottom
    case Failed => SentimentVeryDissatisfied
    case Idle => SentimentNeutral
    case Ok => SentimentSatisfiedAlt
    case Finished => Check
    case Unknown => QuestionMark
  }

  /** Every status has its own icon, and every icon belongs to a status. */
  lemma IconOfBijective(a: Status, b: Status, icon: StatusIcon)
    ensures IconOf(a) == IconOf(b) <==> a == b
    ensures exists s :: s in ALL_STATUSES && IconOf(s) == icon
  {
    match icon
    case HourglassBottom => assert IconOf(ALL_STATUSES[3]) == icon;
    case SentimentVeryDissatisfied => assert IconOf(ALL_STATUSES[2]) == icon;
    case SentimentNeutral => assert IconOf(ALL_STATUSES[1]) == icon;
    case SentimentSatisfiedAlt => assert IconOf(ALL_STATUSES[0]) == icon;
    case Check => assert IconOf(ALL_STATUSES[4]) == icon;
    case QuestionMark => assert IconOf(ALL_STATUSES[5]) == icon;
  }

  datatype ChipColor = Success | Warning | Error | Default

  datatype Chip = Chip(color: ChipColor, text: string)

  /** status.charAt(0).toUpperCase() + status.slice(1) */
  function Capitalized(name: string): (r: string)
    ensures |r| == |name|
    ensures name != [] ==> r[0] == UpperChar(name[0]) && r[1..] == name[1..]
  {
    if name == [] then [] else [UpperChar(name[0])] + name[1..]
  }

  /** StatusChip: nothing without a status; otherwise a chip coloured by the status and
      labelled with its capitalized name. */
  function StatusChip(status: Option<Status>): (r: Option<Chip>)
    ensures r.None? <==> status.None?
    ensures r.Some? ==> r.value.text == Capitalized(StatusName(status.value))
  {
    if status.None? then None
    else
      var s := status.value;
      var color := if s == Ok then Success else if s == Idle then Warning else if s == Failed then Error else Default;
      Some(Chip(color, Capitalized(StatusName(s))))
  }

  /** The chip is green for ok, amber for idle, red for failed and plain for the other
      three statuses. */
  lemma ChipColorCases(s: Status)
    ensures StatusChip(Some(s)).value.color == Success <==> s == Ok
    ensures StatusChip(Some(s)).value.color == Warning <==> s == Idle
    ensures StatusChip(Some(s)).value.color == Error <==> s == Failed
    ensures StatusChip(Some(s)).value.color == Default <==> s in {Queued, Finished, Unknown}
  {
  }

  predicate LowerWord(name: string) {
    forall i :: 0 <= i < |name| ==> 'a' <= name[i] <= 'z'
  }

  /** Capitalizing a lower-case word and lower-casing it again gives the word back. */
  lemma CapitalizedRoundTrip(name: string)
    requires LowerWord(name)
    ensures ToLower(Capitalized(name)) == name
  {
    var shown := Capitalized(name);
    forall i | 0 <= i < |name| ensures LowerChar(shown[i]) == name[i] {
      if i > 0 {
        assert shown[i] == shown[1..][i - 1];
      }
    }
  }

  /** Lower-casing the chip label gives the status name back, so the labels of different
      statuses differ. */
  lemma ChipLabelRoundTrip(s: Status)
    ensures ToLower(StatusChip(Some(s)).value.text) == StatusName(s)
  {
    assert LowerWord(StatusName(s));
    CapitalizedRoundTrip(StatusName(s));
  }
}
