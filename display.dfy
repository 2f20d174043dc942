/**
 * How `!status` (and the start poll) turn the server's attributes into what
 * the chat shows: the online player count, the player display, and the
 * status emoji and label tables with their fallbacks.
 */
module Display {

  import opened Wrappers
  import opened Text
  import opened Aternos

  /** The four statuses the lookup tables know. */
  predicate KnownStatus(status: string) {
    status == "online" || status == "offline" || status == "starting" || status == "stopping"
  }

  const OnlineEmoji := "\U{1F7E2}"
  const OfflineEmoji := "\U{1F534}"
  const StartingEmoji := "\U{1F7E1}"
  const StoppingEmoji := "\U{1F7E0}"
  const UnknownEmoji := "\U{26AA}"

  /** Players online: the length of `players_list` when it is a list, otherwise 0. */
  function PlayersOnline(list: PlayersList): (n: nat)
    ensures list.Names? ==> n == |list.names|
    ensures !list.Names? ==> n == 0
  {
    match list
    case Absent => 0
    case Names(names) => |names|
    case NotAList => 0
  }

  /**
   * The player display: `online/max` when `players_count` is known; when it
   * is not, the online count alone (the source's special case for zero
   * gives the same text as `str(0)`).
   */
  function PlayersDisplay(online: nat, max: Option<int>): (r: string)
    ensures max.None? ==> r == Digits(online)
    ensures max.Some? ==> r == Digits(online) + "/" + IntText(max.value)
  {
    match max
    case None => if online > 0 then Digits(online) else "0"
    case Some(m) => Digits(online) + "/" + IntText(m)
  }

  /** Reads a player display back into the online count and the maximum, if it has one. */
  function ParsePlayersDisplay(d: string): Option<(nat, Option<int>)> {
    var n := LeadingDigits(d);
    match ParseNat(d[..n])
    case None => None
    case Some(online) =>
      if n == |d| then Some((online, None))
      else if d[n] == '/' then
        match ParseInt(d[n + 1..])
        case Some(m) => Some((online, Some(m)))
        case None => None
      else None
  }

  /** The player display is unambiguous: it reads back as the count and maximum it was made from. */
  lemma PlayersDisplayRoundTrip(online: nat, max: Option<int>)
    ensures ParsePlayersDisplay(PlayersDisplay(online, max)) == Some((online, max))
  {
    var d := PlayersDisplay(online, max);
    var digits := Digits(online);
    NatTextRoundTrip(online);
    match max
    case None =>
      LeadingDigitsOfDigitRun(digits, []);
      assert digits + [] == d;
      assert d[..|digits|] == digits;
    case Some(m) =>
      var tail := "/" + IntText(m);
      assert d == digits + tail;
      LeadingDigitsOfDigitRun(digits, tail);
      assert d[..|digits|] == digits;
      assert d[|digits| + 1..] == IntText(m);
      IntTextRoundTrip(m);
  }

  /** The status emoji table, with `⚪` for any other status. */
  function StatusEmoji(status: string): (r: string)
    ensures r == UnknownEmoji <==> !KnownStatus(status)
  {
    if status == "online" then OnlineEmoji
    else if status == "offline" then OfflineEmoji
    else if status == "starting" then StartingEmoji
    else if status == "stopping" then StoppingEmoji
    else UnknownEmoji
  }

  /** A known status is the only status with its emoji. */
  lemma StatusEmojiIdentifiesKnownStatus(s: string, t: string)
    requires KnownStatus(s)
    ensures StatusEmoji(s) == StatusEmoji(t) <==> s == t
  {
  }

  /**
   * The status label table of `!status`; any other status is shown
   * upper-cased, and an empty status as `UNKNOWN`.
   */
  function StatusLabel(status: string): (r: string)
    ensures |r| > 0
    ensures !KnownStatus(status) && status != "" ==> r == Upper(status)
    ensures status == "" ==> r == "UNKNOWN"
  {
    if status == "online" then "**ONLINE**"
    else if status == "offline" then "**OFFLINE**"
    else if status == "starting" then "**LOADING... PREPARING...**"
    else if status == "stopping" then "**STOPPING...**"
    else if status != "" then Upper(status)
    else "UNKNOWN"
  }

  /**
   * An unknown, non-empty status gets the fallback emoji and is shown with
   * the same length, in upper case.
   */
  lemma UnknownStatusShownUpperCase(status: string)
    requires !KnownStatus(status) && status != ""
    ensures StatusEmoji(status) == UnknownEmoji
    ensures |StatusLabel(status)| == |status|
    ensures forall i | 0 <= i < |status| :: !IsLower(StatusLabel(status)[i])
  {
    UpperIsUpperCase(status);
  }

  /** The status shown while the start poll is waiting: `STARTING`, or the status upper-cased, or `UNKNOWN`. */
  function ProgressLabel(status: string): (r: string)
    ensures |r| > 0
  {
    if status == "starting" then "STARTING"
    else if status != "" then Upper(status)
    else "UNKNOWN"
  }

  /**
   * The special case for `starting` in the start poll shows what the general
   * rule would show anyway.
   */
  lemma ProgressLabelIsUpperOrUnknown(status: string)
    ensures ProgressLabel(status) == if status == "" then "UNKNOWN" else Upper(status)
  {
    if status == "starting" {
      var u := Upper(status);
      assert u == ['S', 'T', 'A', 'R', 'T', 'I', 'N', 'G'];
    }
  }

  /**
   * The status texts the loading message shows, one per status the start
   * poll reads while waiting: each upper-cased, or `UNKNOWN` when empty.
   */
  function ProgressTexts(shown: seq<string>): (texts: seq<string>)
    ensures |texts| == |shown|
    ensures forall i | 0 <= i < |shown| :: texts[i] == if shown[i] == "" then "UNKNOWN" else Upper(shown[i])
  {
    if shown == [] then []
    else
      var last := shown[|shown| - 1];
      ProgressLabelIsUpperOrUnknown(last);
      ProgressTexts(shown[..|shown| - 1]) + [ProgressLabel(last)]
  }

  /** The status shown when the start poll gives up: upper-cased, or `STARTING` when empty. */
  function FinalLabel(status: string): (r: string)
    ensures status == "" ==> r == "STARTING"
    ensures status != "" ==> r == Upper(status)
    ensures status != "" ==> |r| == |status| && forall i | 0 <= i < |r| :: !IsLower(r[i])
  {
    if status != "" then UpperIsUpperCase(status); Upper(status) else "STARTING"
  }
}
