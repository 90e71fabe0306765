/**
 A song as the player sees it, and the admission rules a song must satisfy
 before an ordinary (non-administrator) submission may enqueue it.
 */
module Songs {

  import opened Options
  import Duration

  /** What the metadata lookup reports for a submitted URL. */
  datatype Metadata = Metadata(
    videoid: string,
    title: string,
    lengthSeconds: int,
    viewCount: int,
    avgRating: real)

  /** The outcome of resolving a submitted string: metadata, or the error's text. */
  datatype Resolution = Resolved(meta: Metadata) | Unresolvable(cause: string)

  /** A submitted song together with its resolved metadata. */
  datatype Song = Song(
    url: string,
    ipaddr: string,
    score: int,
    videoid: string,
    title: string,
    lengthSeconds: int,
    viewCount: int,
    avgRating: real,
    lengthStr: string)

  /** Every song gets the same score; the field carries no behaviour. */
  const DefaultScore: int := 1

  /** Builds the song for a submission whose metadata was resolved. */
  function MakeSong(url: string, ipaddr: string, m: Metadata): (s: Song)
    ensures s.url == url && s.ipaddr == ipaddr && s.score == DefaultScore
    ensures s.videoid == m.videoid && s.title == m.title
    ensures s.lengthSeconds == m.lengthSeconds && s.viewCount == m.viewCount && s.avgRating == m.avgRating
    ensures s.lengthStr == Duration.LengthStr(m.lengthSeconds)
    ensures Duration.ParseLengthStr(s.lengthStr) == Some(m.lengthSeconds)
  {
    Duration.LengthStrRoundTrip(m.lengthSeconds);
    Song(url, ipaddr, DefaultScore, m.videoid, m.title, m.lengthSeconds, m.viewCount, m.avgRating,
         Duration.LengthStr(m.lengthSeconds))
  }

  /** An admission rule: a description shown on rejection and the test itself. */
  datatype Rule = Rule(description: string, admits: Song -> bool)

  /** The rule list, in the order in which it is evaluated. */
  const Rules: seq<Rule> := [
    Rule("Duration < 7 min", (s: Song) => s.lengthSeconds < 420),
    Rule("Score > 4.0", (s: Song) => s.avgRating > 4.0),
    Rule("Views > 10k", (s: Song) => s.viewCount > 10000)
  ]

  /**
   The description of the first rule, in list order, that `s` fails; `None`
   when `s` passes them all. Later rules are not looked at once one fails.
   */
  function FirstFailing(rules: seq<Rule>, s: Song): (r: Option<string>)
    ensures r.None? <==> forall i :: 0 <= i < |rules| ==> rules[i].admits(s)
    ensures r.Some? ==>
      exists i :: 0 <= i < |rules| && !rules[i].admits(s) && rules[i].description == r.value
        && forall j :: 0 <= j < i ==> rules[j].admits(s)
    decreases |rules|
  {
    if |rules| == 0 then None
    else if !rules[0].admits(s) then Some(rules[0].description)
    else
      var rest := FirstFailing(rules[1..], s);
      assert forall i :: 1 <= i < |rules| ==> rules[i] == rules[1..][i - 1];
      rest
  }

  /** The rule that is reported is unique: it is the first failing one. */
  lemma FirstFailingIsFirst(rules: seq<Rule>, s: Song, k: nat)
    requires k < |rules| && !rules[k].admits(s)
    requires forall j :: 0 <= j < k ==> rules[j].admits(s)
    ensures FirstFailing(rules, s) == Some(rules[k].description)
  {
  }

  /** A song passes the default rules exactly when all three bounds hold. */
  lemma AdmittedIff(s: Song)
    ensures FirstFailing(Rules, s).None? <==>
      s.lengthSeconds < 420 && s.avgRating > 4.0 && s.viewCount > 10000
  {
  }

  /** Which description a rejected song is told, by the default rules. */
  lemma RejectionReason(s: Song)
    ensures s.lengthSeconds >= 420 ==> FirstFailing(Rules, s) == Some("Duration < 7 min")
    ensures s.lengthSeconds < 420 && s.avgRating <= 4.0 ==> FirstFailing(Rules, s) == Some("Score > 4.0")
    ensures s.lengthSeconds < 420 && s.avgRating > 4.0 && s.viewCount <= 10000 ==>
      FirstFailing(Rules, s) == Some("Views > 10k")
  {
  }
}
