/** The score badge of a game card: a placeholder while the score loads, a
    dash when there is none, otherwise the score on a colour band. */
module ScoreBadge {
  import opened Common
  import opened FrontendTypes
  import AppList
  import Metacritic

  datatype Colour = Green | Yellow | Red

  datatype Badge = Pulse | Dash | Scored(colour: Colour, text: int)

  function BadgeFor(score: Option<int>, loading: bool): (b: Badge)
    ensures loading ==> b == Pulse
    ensures !loading && score.None? ==> b == Dash
    ensures !loading && score.Some? ==> b.Scored? && b.text == score.value
    ensures b.Scored? ==> (b.colour == Green <==> score.value >= 75)
    ensures b.Scored? ==> (b.colour == Yellow <==> 50 <= score.value < 75)
    ensures b.Scored? ==> (b.colour == Red <==> score.value < 50)
  {
    if loading then Pulse
    else if score.None? then Dash
    else
      var colour := if score.value >= 75 then Green else if score.value >= 50 then Yellow else Red;
      Scored(colour, score.value)
  }

  /** What a game card passes: `metacritic?.score ?? null` and
      `metacritic?.status === 'loading'`. */
  function BadgeOf(g: GameWithScore): (b: Badge)
    ensures g.metacritic.None? ==> b == Dash
    ensures g.metacritic.Some? && g.metacritic.value.status == Loading ==> b == Pulse
    ensures g.metacritic.Some? && g.metacritic.value.status != Loading ==>
      (b == Dash <==> g.metacritic.value.score.None?)
    ensures g.metacritic.Some? && g.metacritic.value.status != Loading && g.metacritic.value.score.Some? ==>
      b.Scored? && b.text == g.metacritic.value.score.value
  {
    match g.metacritic
    case None => BadgeFor(None, false)
    case Some(m) => BadgeFor(m.score, m.status == Loading)
  }

  /** Right after the catalog loads, every card shows the placeholder. */
  lemma InitialCardsPulse(catalog: seq<Game>)
    ensures forall g :: g in AppList.InitialScores(catalog) ==> BadgeOf(g) == Pulse
  {
  }

  /** A failed score request shows a dash. */
  lemma NotFoundShowsDash(g: Game)
    ensures BadgeOf(GameWithScore(g, Some(AppList.NotFoundScore))) == Dash
  {
  }

  /** Scores from the mock service are never shown red. */
  lemma MockScoresNeverRed(g: Game)
    ensures var b := BadgeOf(GameWithScore(g, Some(Metacritic.GetScore(g.title))));
      b.Scored? && b.colour != Red && b.text == Metacritic.GetScore(g.title).score.value
  {
    Metacritic.ScoreRange(g.title);
  }
}
