/** The dashboard's query form: comma-separated preference lists, the
    revenue bounds, and the query parameters it sends to `/api/leads`. */
module App {
  import opened Options
  import Text
  import PyValues
  import opened ScoringConfig
  import Scoring
  import Routes
  import PyNumbers
  import StableSort
  import Seqs

  /** JavaScript `s.trim()`: `s` without its leading and trailing white space. */
  function Trim(s: string): (r: string)
    ensures Text.Trimmed(r, Text.IsJsSpace)
    ensures Text.Inner(r, s, Text.IsJsSpace)
    ensures Text.Trimmed(s, Text.IsJsSpace) ==> r == s
    ensures forall c :: c in r ==> c in s
  {
    Text.Strip(s, Text.IsJsSpace)
  }

  /** `.map(s => s.trim())`. */
  function TrimAll(xs: seq<string>): (r: seq<string>)
    ensures |r| == |xs|
    ensures forall i :: 0 <= i < |xs| ==> r[i] == Trim(xs[i])
  {
    if |xs| == 0 then [] else [Trim(xs[0])] + TrimAll(xs[1..])
  }

  /** `.filter(Boolean)` on strings: the non-empty entries, each as often as
      `xs` holds it, in their order. */
  function DropEmpty(xs: seq<string>): (r: seq<string>)
    ensures Seqs.Subsequence(r, xs)
    ensures forall x :: multiset(r)[x] == if x == "" then 0 else multiset(xs)[x]
  {
    if |xs| == 0 then []
    else
      var rest := DropEmpty(xs[1..]);
      assert xs == [xs[0]] + xs[1..];
      if xs[0] == "" then
        assert |rest| > 0 ==> rest[0] in multiset(rest);
        rest
      else
        assert ([xs[0]] + rest)[1..] == rest;
        [xs[0]] + rest
  }

  /** Keeping the order and the count of every non-empty entry, and holding no
      empty one, pins the result down: `DropEmpty` is the only such list. */
  lemma {:induction false} DropEmptyUnique(xs: seq<string>, ys: seq<string>)
    requires Seqs.Subsequence(ys, xs)
    requires forall x :: multiset(ys)[x] == if x == "" then 0 else multiset(xs)[x]
    ensures ys == DropEmpty(xs)
  {
    if |xs| == 0 {
      assert |ys| == 0;
    } else {
      assert xs == [xs[0]] + xs[1..];
      var counts := multiset(xs[1..]);
      assert forall x :: multiset(xs)[x] == counts[x] + (if x == xs[0] then 1 else 0);
      if |ys| == 0 {
        assert forall i :: 0 <= i < |xs| ==> xs[i] == "" by {
          forall i | 0 <= i < |xs|
            ensures xs[i] == ""
          {
            assert xs[i] in multiset(xs);
          }
        }
        DropEmptyAllBlank(xs);
      } else if ys[0] == xs[0] {
        assert ys == [ys[0]] + ys[1..];
        assert ys[0] in multiset(ys);
        assert forall x :: multiset(ys)[x] == multiset(ys[1..])[x] + (if x == ys[0] then 1 else 0);
        DropEmptyUnique(xs[1..], ys[1..]);
      } else {
        assert Seqs.Subsequence(ys, xs[1..]);
        Seqs.SubsequenceCounts(ys, xs[1..]);
        assert multiset(ys)[xs[0]] <= counts[xs[0]];
        assert xs[0] == "";
        DropEmptyUnique(xs[1..], ys);
      }
    }
  }

  /** With no empty entry there is nothing to drop. */
  lemma DropEmptyNoBlank(xs: seq<string>)
    requires forall i :: 0 <= i < |xs| ==> xs[i] != ""
    ensures DropEmpty(xs) == xs
  {
    Seqs.SubsequenceRefl(xs);
    assert "" !in multiset(xs);
    DropEmptyUnique(xs, xs);
  }

  /** With only empty entries nothing remains. */
  lemma {:induction false} DropEmptyAllBlank(xs: seq<string>)
    requires forall i :: 0 <= i < |xs| ==> xs[i] == ""
    ensures DropEmpty(xs) == []
  {
    if |xs| > 0 {
      DropEmptyAllBlank(xs[1..]);
    }
  }

  /** Every entry `DropEmpty` keeps is a non-empty entry of `xs`. */
  lemma DropEmptyEntry(xs: seq<string>, i: nat)
    requires i < |DropEmpty(xs)|
    ensures DropEmpty(xs)[i] != "" && DropEmpty(xs)[i] in xs
  {
    var r := DropEmpty(xs);
    assert r[i] in multiset(r);
  }

  /** The comma-separated pieces of `input`, each trimmed. */
  function Pieces(input: string): seq<string> {
    TrimAll(Text.Split(input, ','))
  }

  /** `parseCSVish`: split on commas, trim each piece, drop the empty ones.
      The entries are the non-blank trimmed pieces in input order, each as
      often as it occurs. */
  function ParseCsvish(input: string): (r: seq<string>)
    ensures Seqs.Subsequence(r, Pieces(input))
    ensures forall x :: multiset(r)[x] == if x == "" then 0 else multiset(Pieces(input))[x]
    ensures forall i :: 0 <= i < |r| ==> r[i] != "" && TrimmedPiece(r[i], input)
  {
    var r := DropEmpty(Pieces(input));
    EntriesArePieces(input);
    r
  }

  lemma EntriesArePieces(input: string)
    ensures forall i :: 0 <= i < |DropEmpty(Pieces(input))| ==>
              DropEmpty(Pieces(input))[i] != "" && TrimmedPiece(DropEmpty(Pieces(input))[i], input)
  {
    var r := DropEmpty(Pieces(input));
    forall i | 0 <= i < |r|
      ensures r[i] != "" && TrimmedPiece(r[i], input)
    {
      DropEmptyEntry(Pieces(input), i);
      TrimmedPieceOf(input, r[i]);
    }
  }

  /** `x` is a trimmed, comma-free piece of `input`. */
  predicate TrimmedPiece(x: string, input: string) {
    Text.Trimmed(x, Text.IsJsSpace) && ',' !in x && forall c :: c in x ==> c in input
  }

  lemma TrimmedPieceOf(input: string, x: string)
    requires x in Pieces(input)
    ensures TrimmedPiece(x, input)
  {
    var pieces := Text.Split(input, ',');
    var j :| 0 <= j < |pieces| && TrimAll(pieces)[j] == x;
    assert x == Trim(pieces[j]);
  }

  /** The order-and-count description determines the parse: any list that
      keeps the order of the trimmed pieces, holds every non-blank one as
      often as the input does and holds no blank one is `ParseCsvish(input)`. */
  lemma ParseCsvishEntries(input: string, ys: seq<string>)
    requires Seqs.Subsequence(ys, Pieces(input))
    requires forall x :: multiset(ys)[x] == if x == "" then 0 else multiset(Pieces(input))[x]
    ensures ys == ParseCsvish(input)
  {
    DropEmptyUnique(Pieces(input), ys);
  }

  /** Input made only of whitespace and commas gives no entries. */
  lemma BlankInputIsEmpty(input: string)
    requires forall i :: 0 <= i < |input| ==> input[i] == ',' || Text.IsJsSpace(input[i])
    ensures ParseCsvish(input) == []
  {
    var pieces := Text.Split(input, ',');
    forall i | 0 <= i < |pieces|
      ensures Trim(pieces[i]) == ""
    {
      assert forall c :: c in pieces[i] ==> c in input;
      assert forall j :: 0 <= j < |pieces[i]| ==> Text.IsJsSpace(pieces[i][j]) by {
        forall j | 0 <= j < |pieces[i]|
          ensures Text.IsJsSpace(pieces[i][j])
        {
          var c := pieces[i][j];
          assert c in pieces[i];
          assert c in input;
          var k :| 0 <= k < |input| && input[k] == c;
        }
      }
    }
    assert forall i :: 0 <= i < |pieces| ==> TrimAll(pieces)[i] == "";
    DropEmptyAllBlank(Pieces(input));
  }

  /** Joining the entries back with commas and parsing again gives the same
      entries: the form's text can be regenerated from the parsed list. */
  lemma ParseCsvishJoin(input: string)
    ensures ParseCsvish(Text.Join(ParseCsvish(input), ',')) == ParseCsvish(input)
  {
    var xs := ParseCsvish(input);
    if |xs| == 0 {
      EmptyInputIsEmpty();
    } else {
      assert forall i :: 0 <= i < |xs| ==> TrimmedPiece(xs[i], input);
      ParseJoinOfEntries(xs);
    }
  }

  /** The empty text has no entries. */
  lemma EmptyInputIsEmpty()
    ensures ParseCsvish("") == []
  {
    EmptyInputPieces();
    OneBlankDropped();
  }

  lemma OneBlankDropped()
    ensures DropEmpty([""]) == []
  {
    var xs: seq<string> := [""];
    assert xs[1..] == [];
  }

  lemma EmptyInputPieces()
    ensures Pieces("") == [""]
  {
    assert Text.Split("", ',') == [""];
  }

  /** Non-empty, trimmed, comma-free entries survive a join and a parse. */
  lemma ParseJoinOfEntries(xs: seq<string>)
    requires |xs| > 0
    requires forall i :: 0 <= i < |xs| ==> xs[i] != "" && Text.Trimmed(xs[i], Text.IsJsSpace) && ',' !in xs[i]
    ensures ParseCsvish(Text.Join(xs, ',')) == xs
  {
    assert Pieces(Text.Join(xs, ',')) == xs by {
      Text.SplitJoin(xs, ',');
      TrimAllTrimmed(xs);
    }
    DropEmptyNoBlank(xs);
  }

  /** Trimming entries that are already trimmed changes nothing. */
  lemma TrimAllTrimmed(xs: seq<string>)
    requires forall i :: 0 <= i < |xs| ==> Text.Trimmed(xs[i], Text.IsJsSpace)
    ensures TrimAll(xs) == xs
  {
    assert forall i :: 0 <= i < |xs| ==> TrimAll(xs)[i] == xs[i];
  }

  /** The preferences object the form sends: both lists, and each revenue
      bound only when it is a finite number (`None` here stands for NaN).
      `JSON.stringify` drops the undefined bounds, so the backend sees them
      as absent keys and no states key at all. */
  function FormPrefs(industries: string, countries: string, revMin: Option<int>, revMax: Option<int>)
    : (p: PrefsDict)
    ensures p.industries == Some(ParseCsvish(industries)) && p.countries == Some(ParseCsvish(countries))
    ensures p.states.None?
    ensures revMin.None? ==> p.revMin.None?
    ensures revMax.None? ==> p.revMax.None?
    ensures revMin.Some? ==> p.revMin == Some(PyValues.Num(revMin.value as real))
    ensures revMax.Some? ==> p.revMax == Some(PyValues.Num(revMax.value as real))
  {
    PrefsDict(Some(ParseCsvish(industries)), Some(ParseCsvish(countries)), None,
              if revMin.Some? then Some(PyValues.Num(revMin.value as real)) else None,
              if revMax.Some? then Some(PyValues.Num(revMax.value as real)) else None)
  }

  /** A bound the form leaves out falls back to the weights' bound on the
      backend, unlike an `ICPPrefs` bound left unset, which disables revenue
      scoring. */
  lemma FormBoundFallsBack(w: PyValues.Dict, industries: string, countries: string, revMax: Option<int>)
    ensures Scoring.RevMin(w, FormPrefs(industries, countries, None, revMax))
            == Scoring.WeightOf(w, "rev_min", 1000000.0)
  {
    Scoring.RevenueBoundsSource(w, w, FormPrefs(industries, countries, None, revMax));
  }

  /** The query parameters: always sorted by score; `min_score=70` when only
      top leads are wanted. */
  function QueryParams(onlyTop: bool): (q: (Option<string>, Option<string>))
    ensures q.1 == Some("score_desc")
    ensures onlyTop ==> Routes.MinScoreParam(q.0) == 70
    ensures !onlyTop ==> Routes.MinScoreParam(q.0) == 0
  {
    assert PyNumbers.ParseInt("70") == Some(70) by {
      PyNumbers.ParseIntDigits("70");
    }
    (if onlyTop then Some("70") else None, Some("score_desc"))
  }

  /** What the table shows for "Top leads only": every lead scores at least 70
      and the rows run from highest score to lowest. */
  lemma TopLeadsOnly(scored: seq<Scoring.Labelled>)
    ensures var q := QueryParams(true);
            var rows := Routes.Refine(scored, Routes.MinScoreParam(q.0), q.1);
            && (forall i :: 0 <= i < |rows| ==> rows[i].score >= 70)
            && StableSort.NonIncreasing(rows, Routes.ScoreKey)
  {
  }
}
