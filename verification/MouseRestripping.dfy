/** When stripping a second time changes nothing: taking reports out can bring the parts of another one together. */
module MouseRestripping {
  import opened Prelude
  import opened MouseSgr
  import opened MouseStripping

  // --- Where the kept runes come from ---

  /** The positions kept from a position on. */
  function Places(ends: Ends, from: nat): (places: seq<nat>)
    requires Forward(ends) && from <= |ends|
    ensures forall i :: 0 <= i < |places| ==> from <= places[i] < |ends| && ends[places[i]] == None
    decreases |ends| - from
  {
    if from == |ends| then []
    else
      match ends[from]
      case Some(end) => Places(ends, end)
      case None => [from] + Places(ends, from + 1)
  }

  lemma {:induction false} PlacesAscend(ends: Ends, from: nat)
    requires Forward(ends) && from <= |ends|
    ensures forall i, j :: 0 <= i < j < |Places(ends, from)| ==> Places(ends, from)[i] < Places(ends, from)[j]
    decreases |ends| - from
  {
    if from < |ends| {
      match ends[from]
      case Some(end) => PlacesAscend(ends, end);
      case None =>
        var later := Places(ends, from + 1);
        PlacesAscend(ends, from + 1);
        forall i, j | 0 <= i < j < |later| + 1 ensures ([from] + later)[i] < ([from] + later)[j] {
          assert i > 0 ==> later[i - 1] < later[j - 1];
        }
    }
  }

  lemma {:induction false} KeptFromPlaces(s: string, ends: Ends, from: nat)
    requires Forward(ends) && |ends| == |s| && from <= |s|
    ensures var places := Places(ends, from);
            && |Kept(s, ends, from)| == |places|
            && (forall i :: 0 <= i < |places| ==> Kept(s, ends, from)[i] == s[places[i]])
    decreases |s| - from
  {
    if from < |s| {
      match ends[from]
      case Some(end) => KeptFromPlaces(s, ends, end);
      case None => KeptFromPlaces(s, ends, from + 1);
    }
  }

  /** Ascending places that span no more than their number are neighbours. */
  lemma {:induction false} TightPlaces(places: seq<nat>, i: nat, j: nat, k: nat)
    requires forall a, b :: 0 <= a < b < |places| ==> places[a] < places[b]
    requires i <= k <= j < |places| && places[j] - places[i] == j - i
    ensures places[k] == places[i] + (k - i)
  {
    AtLeastApart(places, i, k);
    AtLeastApart(places, k, j);
  }

  lemma {:induction false} AtLeastApart(places: seq<nat>, i: nat, j: nat)
    requires forall a, b :: 0 <= a < b < |places| ==> places[a] < places[b]
    requires i <= j < |places|
    ensures places[j] >= places[i] + (j - i)
    decreases j - i
  {
    if i < j {
      AtLeastApart(places, i, j - 1);
    }
  }

  // --- Stripping what is left ---

  /** Nothing is taken out of an input exactly when no report begins anywhere in it. */
  lemma {:induction false} KeptShrinks(s: string, ends: Ends, from: nat)
    requires Forward(ends) && |ends| == |s| && from <= |s|
    ensures |Kept(s, ends, from)| <= |s| - from
    ensures |Kept(s, ends, from)| == |s| - from <==> NoneFrom(ends, from)
    decreases |s| - from
  {
    if from < |s| {
      match ends[from]
      case Some(end) => KeptShrinks(s, ends, end);
      case None => KeptShrinks(s, ends, from + 1);
    }
  }

  predicate NoneFrom(ends: Ends, from: nat) {
    forall p :: from <= p < |ends| ==> ends[p] == None
  }

  lemma {:induction false} KeptWhole(s: string, ends: Ends, from: nat)
    requires Forward(ends) && |ends| == |s| && from <= |s| && NoneFrom(ends, from)
    ensures Kept(s, ends, from) == s[from..]
    decreases |s| - from
  {
    if from < |s| {
      KeptWhole(s, ends, from + 1);
      assert s[from..] == [s[from]] + s[from + 1..];
    }
  }

  lemma UnchangedExactly(s: string)
    ensures Kept(s, EndsOf(s), 0) == s <==> NoneFrom(EndsOf(s), 0)
  {
    KeptShrinks(s, EndsOf(s), 0);
    if NoneFrom(EndsOf(s), 0) {
      KeptWhole(s, EndsOf(s), 0);
      assert s[0..] == s;
    }
  }

  /** Kept runes i up to j spell a report, though they were not all next to each other in the input. */
  ghost predicate Rejoins(s: string, i: nat, j: nat) {
    var places := Places(EndsOf(s), 0);
    && i < j <= |places| && places[j - 1] - places[i] > j - 1 - i
    && |Kept(s, EndsOf(s), 0)| == |places| && IsReport(Kept(s, EndsOf(s), 0)[i..j])
  }

  lemma SameText(s: string, left: string, places: seq<nat>, i: nat, j: nat)
    requires |left| == |places| && i < j <= |left|
    requires forall k :: 0 <= k < |places| ==> places[k] < |s| && left[k] == s[places[k]]
    requires forall k :: i <= k < j ==> places[k] == places[i] + (k - i)
    ensures places[i] + (j - i) <= |s| && s[places[i]..places[i] + (j - i)] == left[i..j]
  {
    assert places[j - 1] < |s|;
  }

  /** Kept runes that were neighbours and spell a report would be recognised in the input. */
  lemma NeighboursAreRecognised(s: string, left: string, places: seq<nat>, i: nat, j: nat)
    requires |left| == |places| && i < j <= |left| && IsReport(left[i..j])
    requires forall k :: 0 <= k < |places| ==> places[k] < |s| && left[k] == s[places[k]]
    requires forall a, b :: 0 <= a < b < |places| ==> places[a] < places[b]
    requires places[j - 1] - places[i] == j - 1 - i
    ensures Consume(s, places[i]) == Some(places[i] + (j - i))
  {
    forall k | i <= k < j ensures places[k] == places[i] + (k - i) {
      TightPlaces(places, i, j - 1, k);
    }
    SameText(s, left, places, i, j);
    RecogniserMatchesGrammar(s, places[i], places[i] + (j - i));
  }

  lemma UnrecognisedIsParted(s: string, left: string, places: seq<nat>, i: nat, j: nat)
    requires |left| == |places| && i < j <= |left| && IsReport(left[i..j])
    requires forall k :: 0 <= k < |places| ==> places[k] < |s| && left[k] == s[places[k]]
    requires forall a, b :: 0 <= a < b < |places| ==> places[a] < places[b]
    requires Consume(s, places[i]) == None
    ensures places[j - 1] - places[i] > j - 1 - i
  {
    AtLeastApart(places, i, j - 1);
    if places[j - 1] - places[i] == j - 1 - i {
      NeighboursAreRecognised(s, left, places, i, j);
    }
  }

  lemma PlaceIsNoReport(s: string, i: nat)
    requires i < |Places(EndsOf(s), 0)|
    ensures Consume(s, Places(EndsOf(s), 0)[i]) == None
  {
  }

  lemma PlacedRunes(s: string, left: string, places: seq<nat>)
    requires left == Kept(s, EndsOf(s), 0) && places == Places(EndsOf(s), 0)
    ensures |left| == |places| && forall k :: 0 <= k < |places| ==> places[k] < |s| && left[k] == s[places[k]]
    ensures forall a, b :: 0 <= a < b < |places| ==> places[a] < places[b]
  {
    KeptFromPlaces(s, EndsOf(s), 0);
    PlacesAscend(EndsOf(s), 0);
  }

  /** A report in what is left was not there before: a kept rune never begins a report. */
  lemma LeftReportIsParted(s: string, left: string, places: seq<nat>, i: nat, j: nat)
    requires left == Kept(s, EndsOf(s), 0) && places == Places(EndsOf(s), 0)
    requires i < j <= |left| && IsReport(left[i..j])
    ensures |left| == |places| && places[j - 1] - places[i] > j - 1 - i
  {
    PlacedRunes(s, left, places);
    PlaceIsNoReport(s, i);
    UnrecognisedIsParted(s, left, places, i, j);
  }

  lemma LeftReportRejoins(s: string, left: string, i: nat, j: nat)
    requires left == Kept(s, EndsOf(s), 0) && i < j <= |left| && IsReport(left[i..j])
    ensures Rejoins(s, i, j)
  {
    LeftReportIsParted(s, left, Places(EndsOf(s), 0), i, j);
  }

  /**
   Stripping what is left of an input changes nothing, exactly when no kept runes that were parted by a removed report
   spell a report together.
   */
  lemma RestrippingIsIdleExactly(s: string, left: string)
    requires left == Kept(s, EndsOf(s), 0)
    ensures Kept(left, EndsOf(left), 0) == left <==> !exists i: nat, j: nat :: Rejoins(s, i, j)
  {
    UnchangedExactly(left);
    forall i: nat, j: nat | Rejoins(s, i, j) ensures i < |left| && EndsOf(left)[i] == Some(j) {
      RecogniserMatchesGrammar(left, i, j);
    }
    forall i: nat | i < |left| && EndsOf(left)[i].Some? ensures exists j: nat :: Rejoins(s, i, j) {
      var j := EndsOf(left)[i].value;
      RecogniserMatchesGrammar(left, i, j);
      LeftReportRejoins(s, left, i, j);
    }
  }

  // --- An input that needs stripping twice ---

  lemma BrokenIsNoReport(s: string)
    requires |s| > 5 && s[0] == '[' && s[1] == '<' && s[2] == '0' && s[3] == ';' && s[4] == '1' && s[5] == '['
    ensures Consume(s, 0) == None
  {
    assert DigitsEnd(s, 2) == 3 && DigitsEnd(s, 4) == 5;
    assert FieldsEnd(s, 4, 1) == None;
  }

  lemma SkipReport(s: string, ends: Ends, from: nat, end: nat)
    requires Forward(ends) && |ends| == |s| && from < |s| && ends[from] == Some(end)
    ensures Kept(s, ends, from) == Kept(s, ends, end)
  {
  }

  /** Stripping once is not always enough: taking one report out can put another together. */
  lemma StrippingCanExposeAReport(text: string, left: string)
    requires text == "[<0;1[<0;1;1M;1M" && left == "[<0;1;1M"
    ensures Kept(text, EndsOf(text), 0) == left && Kept(left, EndsOf(left), 0) == ""
  {
    BrokenIsNoReport(text);
    ClickIsReport(text, 5);
    ClickIsReport(left, 0);
    LettersAreNoReports(text);
    KeptAround(text, EndsOf(text));
    SkipReport(left, EndsOf(left), 0, 8);
  }

  lemma KeptAround(s: string, ends: Ends)
    requires |s| == |ends| == 16 && Forward(ends) && ends[5] == Some(13)
    requires ends[0] == None && ends[1] == None && ends[2] == None && ends[3] == None && ends[4] == None
    requires ends[13] == None && ends[14] == None && ends[15] == None
    ensures Kept(s, ends, 0) == [s[0], s[1], s[2], s[3], s[4], s[13], s[14], s[15]]
  {
    assert Kept(s, ends, 15) == [s[15]];
    assert Kept(s, ends, 14) == [s[14], s[15]];
    assert Kept(s, ends, 13) == [s[13], s[14], s[15]] && Kept(s, ends, 5) == [s[13], s[14], s[15]];
    assert Kept(s, ends, 4) == [s[4], s[13], s[14], s[15]];
    assert Kept(s, ends, 3) == [s[3], s[4], s[13], s[14], s[15]];
    assert Kept(s, ends, 2) == [s[2], s[3], s[4], s[13], s[14], s[15]];
    assert Kept(s, ends, 1) == [s[1], s[2], s[3], s[4], s[13], s[14], s[15]];
  }

  lemma LettersAreNoReports(text: string)
    requires text == "[<0;1[<0;1;1M;1M"
    ensures forall k :: 1 <= k < 5 || 13 <= k < 16 ==> EndsOf(text)[k] == None
  {
    forall k | 1 <= k < 5 || 13 <= k < 16 ensures EndsOf(text)[k] == None {
      LetterIsNoReport(text, k);
    }
  }
}
