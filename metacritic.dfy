/** The mock review-score service: a fixed table of known titles, a
    deterministic fallback score for the others, and the review-page URL
    built from the title. */
module Metacritic {
  import opened Common
  import opened FrontendTypes

  const MockScores: map<string, int> := map[
    "Halo Infinite" := 87,
    "Forza Horizon 5" := 92,
    "Starfield" := 83,
    "Sea of Thieves" := 69,
    "Hi-Fi RUSH" := 87,
    "Gears 5" := 84,
    "Ori and the Will of the Wisps" := 90,
    "Hollow Knight" := 90,
    "Doom Eternal" := 88,
    "Psychonauts 2" := 89,
    "Dead Cells" := 89,
    "Mass Effect Legendary Edition" := 90,
    "Minecraft" := 93,
    "Control" := 85,
    "Grounded" := 82
  ]

  const ReviewBase := "https://www.metacritic.com/game/"

  // ---------------------------------------------------------------------------
  // The URL slug: lower case, each run of white space replaced by one `-`.

  /** The characters of the regular-expression class `\s`. */
  predicate IsSpace(c: char) {
    c == ' ' || c == '\t' || c == '\n' || c == '\r' || c == '\U{000B}' || c == '\U{000C}'
    || c == '\U{00A0}' || c == '\U{1680}' || ('\U{2000}' <= c <= '\U{200A}')
    || c == '\U{2028}' || c == '\U{2029}' || c == '\U{202F}' || c == '\U{205F}'
    || c == '\U{3000}' || c == '\U{FEFF}'
  }

  predicate NoSpace(s: string) {
    forall i :: 0 <= i < |s| ==> !IsSpace(s[i])
  }

  /** `s` without its leading white space. */
  function DropSpaces(s: string): (r: string)
    ensures |r| <= |s|
    ensures r == [] || !IsSpace(r[0])
    ensures s != [] && IsSpace(s[0]) ==> |r| < |s|
    ensures forall i :: 0 <= i < |s| - |r| ==> IsSpace(s[i])
    ensures r == s[|s| - |r|..]
  {
    if s != [] && IsSpace(s[0]) then DropSpaces(s[1..]) else s
  }

  /** `s.replace(/\s+/g, '-')`. */
  function ReplaceSpaceRuns(s: string): (r: string)
    ensures NoSpace(r)
    ensures |r| <= |s|
    decreases |s|
  {
    if s == [] then []
    else if IsSpace(s[0]) then "-" + ReplaceSpaceRuns(DropSpaces(s))
    else [s[0]] + ReplaceSpaceRuns(s[1..])
  }

  /** Text without white space passes through unchanged. */
  lemma {:induction false} ReplaceNoSpace(s: string)
    requires NoSpace(s)
    ensures ReplaceSpaceRuns(s) == s
  {
    if s != [] {
      ReplaceNoSpace(s[1..]);
    }
  }

  /** A word, a run of white space and the rest: the run becomes one `-`. */
  lemma {:induction false} ReplaceWordThenRun(a: string, ws: string, b: string)
    requires NoSpace(a)
    requires ws != [] && forall i :: 0 <= i < |ws| ==> IsSpace(ws[i])
    requires b == [] || !IsSpace(b[0])
    ensures ReplaceSpaceRuns(a + ws + b) == a + "-" + ReplaceSpaceRuns(b)
  {
    if a == [] {
      assert a + ws + b == ws + b;
      DropRun(ws, b);
    } else {
      assert (a + ws + b)[1..] == a[1..] + ws + b;
      ReplaceWordThenRun(a[1..], ws, b);
    }
  }

  lemma {:induction false} DropRun(ws: string, b: string)
    requires forall i :: 0 <= i < |ws| ==> IsSpace(ws[i])
    requires b == [] || !IsSpace(b[0])
    ensures DropSpaces(ws + b) == b
  {
    if ws != [] {
      assert (ws + b)[1..] == ws[1..] + b;
      DropRun(ws[1..], b);
    } else {
      assert ws + b == b;
    }
  }

  function Slug(title: string): (r: string)
    ensures NoSpace(r) && |r| <= |title|
  {
    ReplaceSpaceRuns(Lower(title))
  }

  lemma {:induction false} LowerKeepsSpaces(s: string)
    ensures NoSpace(s) ==> NoSpace(Lower(s))
  {
  }

  lemma {:induction false} LowerAppend(a: string, b: string)
    ensures Lower(a + b) == Lower(a) + Lower(b)
  {
    if a == [] {
      assert a + b == b;
    } else {
      assert (a + b)[1..] == a[1..] + b;
      LowerAppend(a[1..], b);
    }
  }

  /** Two words separated by one space: `word1-word2`, lower-cased. */
  lemma {:induction false} SlugTwoWords(a: string, b: string)
    requires NoSpace(a) && NoSpace(b)
    ensures Slug(a + " " + b) == Lower(a) + "-" + Lower(b)
  {
    LowerAppend(a + " ", b);
    LowerAppend(a, " ");
    assert Lower(" ") == " ";
    LowerKeepsSpaces(a);
    LowerKeepsSpaces(b);
    ReplaceWordThenRun(Lower(a), " ", Lower(b));
    ReplaceNoSpace(Lower(b));
  }

  // ---------------------------------------------------------------------------
  // The score.

  /** `60 + (title.length * 3) % 30`. */
  function FallbackScore(title: string): (score: int)
    ensures 60 <= score <= 87 && score % 3 == 0
  {
    TripleMod(|title|);
    60 + (|title| * 3) % 30
  }

  lemma TripleMod(n: nat)
    ensures (n * 3) % 30 == 3 * (n % 10)
  {
    var q, r := n / 10, n % 10;
    assert n * 3 == 30 * q + 3 * r;
  }

  /** `getScore(title)`, without the simulated delay. */
  function GetScore(title: string): (d: MetacriticData)
    ensures d.status == Available && d.score.Some?
    ensures title in MockScores ==> d.score == Some(MockScores[title]) && d.url == Some(ReviewBase + Slug(title))
    ensures title !in MockScores ==> d.score == Some(FallbackScore(title)) && d.url == Some("#")
  {
    if title in MockScores then
      MetacriticData(Some(MockScores[title]), Some(ReviewBase + Slug(title)), Available)
    else
      MetacriticData(Some(FallbackScore(title)), Some("#"), Available)
  }

  /** Every score handed out lies between 60 and 93. */
  lemma ScoreRange(title: string)
    ensures 60 <= GetScore(title).score.value <= 93
  {
    if title in MockScores {
      assert forall t | t in MockScores :: 69 <= MockScores[t] <= 93;
    }
  }
}
