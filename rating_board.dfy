/** The rating board: a working copy and a last-saved copy of the ratings,
    keyed by season id, a derived dirty flag, single edits, and a save
    protocol guarded against concurrent saves. The asynchronous save is split
    at its one suspension point into `BeginSave` (the request is built and
    sent) and `CompleteSave` (the outcome arrives). */
module RatingBoard {
  import opened Numeric
  import opened Collections
  import BarChart

  datatype Season = Season(id: int, title: string)

  /** One element of the bulk-save request. */
  datatype BatchItem = BatchItem(seasonId: int, rating: real)

  /** What the save request ends in. A failure carries the message of the
      error caught: the server's `error` text, the transport's message, or empty. */
  datatype SaveOutcome = Success | Failure(message: string)

  const SavedMessage: string := "Saved!"
  const SaveFailedMessage: string := "Save failed"

  /** A rating of a season that has none yet. */
  const DefaultRating: real := 50.0

  function SeasonIds(seasons: seq<Season>): set<int> {
    set i | 0 <= i < |seasons| :: seasons[i].id
  }

  /** The starting value of both copies: every season gets its prior rating,
      or 50 when it has none. */
  function InitialRatings(seasons: seq<Season>, initial: map<int, real>): (m: map<int, real>)
    ensures m.Keys == SeasonIds(seasons)
    ensures forall i :: 0 <= i < |seasons| ==>
      m[seasons[i].id] == (if seasons[i].id in initial then initial[seasons[i].id] else DefaultRating)
  {
    map id | id in SeasonIds(seasons) :: Lookup(initial, id, DefaultRating)
  }

  /** `isDirty`: some season's working rating differs from its saved one
      (a missing entry reads as 0). */
  function IsDirty(seasons: seq<Season>, ratings: map<int, real>, saved: map<int, real>): bool {
    Any(seasons, Differs(ratings, saved))
  }

  /** The test `isDirty` applies to each season. */
  function Differs(ratings: map<int, real>, saved: map<int, real>): Season -> bool {
    (s: Season) => Lookup(ratings, s.id, 0.0) != Lookup(saved, s.id, 0.0)
  }

  /** Two copies agree on the seasons, ignoring every other key. */
  ghost predicate AgreeOn(seasons: seq<Season>, a: map<int, real>, b: map<int, real>) {
    forall i :: 0 <= i < |seasons| ==> Lookup(a, seasons[i].id, 0.0) == Lookup(b, seasons[i].id, 0.0)
  }

  /** The board is dirty iff the two copies disagree on some season. */
  lemma IsDirtyIff(seasons: seq<Season>, ratings: map<int, real>, saved: map<int, real>)
    ensures IsDirty(seasons, ratings, saved) <==> !AgreeOn(seasons, ratings, saved)
  {
    var p := Differs(ratings, saved);
    AnyIff(seasons, p);
    if !AgreeOn(seasons, ratings, saved) {
      var i :| 0 <= i < |seasons| && Lookup(ratings, seasons[i].id, 0.0) != Lookup(saved, seasons[i].id, 0.0);
      assert p(seasons[i]);
    }
  }

  /** Only the seasons' keys matter to the dirty flag. */
  lemma IsDirtyIgnoresOtherKeys(seasons: seq<Season>, r1: map<int, real>, s1: map<int, real>,
                                r2: map<int, real>, s2: map<int, real>)
    requires forall id :: id in SeasonIds(seasons) ==> Lookup(r1, id, 0.0) == Lookup(r2, id, 0.0)
    requires forall id :: id in SeasonIds(seasons) ==> Lookup(s1, id, 0.0) == Lookup(s2, id, 0.0)
    ensures IsDirty(seasons, r1, s1) == IsDirty(seasons, r2, s2)
  {
    IsDirtyIff(seasons, r1, s1);
    IsDirtyIff(seasons, r2, s2);
    assert forall i :: 0 <= i < |seasons| ==> seasons[i].id in SeasonIds(seasons);
  }

  /** A copy is never dirty with respect to itself. */
  lemma NotDirtyWhenEqual(seasons: seq<Season>, m: map<int, real>)
    ensures !IsDirty(seasons, m, m)
  {
    IsDirtyIff(seasons, m, m);
  }

  /** Setting a season's working rating to something other than its saved
      rating makes the board dirty. */
  lemma ChangeMakesDirty(seasons: seq<Season>, ratings: map<int, real>, saved: map<int, real>, id: int, v: real)
    requires id in SeasonIds(seasons) && v != Lookup(saved, id, 0.0)
    ensures IsDirty(seasons, ratings[id := v], saved)
  {
    IsDirtyIff(seasons, ratings[id := v], saved);
    var i :| 0 <= i < |seasons| && seasons[i].id == id;
    assert Lookup(ratings[id := v], seasons[i].id, 0.0) == v;
  }

  /** The items submitted by a save: one per season, in the seasons' order. */
  function Batch(seasons: seq<Season>, ratings: map<int, real>): (b: seq<BatchItem>)
    ensures |b| == |seasons|
    ensures forall i :: 0 <= i < |b| ==> b[i].seasonId == seasons[i].id
    ensures forall i :: 0 <= i < |b| ==> b[i].rating == Lookup(ratings, seasons[i].id, 0.0)
  {
    seq(|seasons|, i requires 0 <= i < |seasons| => BatchItem(seasons[i].id, Lookup(ratings, seasons[i].id, 0.0)))
  }

  /** Two copies submit the same batch iff the board would find no difference
      between them. */
  lemma BatchEqualIffClean(seasons: seq<Season>, a: map<int, real>, b: map<int, real>)
    ensures Batch(seasons, a) == Batch(seasons, b) <==> !IsDirty(seasons, a, b)
  {
    IsDirtyIff(seasons, a, b);
    if Batch(seasons, a) == Batch(seasons, b) {
      forall i | 0 <= i < |seasons|
        ensures Lookup(a, seasons[i].id, 0.0) == Lookup(b, seasons[i].id, 0.0)
      {
        assert Batch(seasons, a)[i] == Batch(seasons, b)[i];
      }
    }
  }

  /** The chart's values: each season's working rating, in order. */
  function Values(seasons: seq<Season>, ratings: map<int, real>): (vs: seq<real>)
    ensures |vs| == |seasons|
    ensures forall i :: 0 <= i < |vs| ==> vs[i] == Batch(seasons, ratings)[i].rating
  {
    seq(|seasons|, i requires 0 <= i < |seasons| => Lookup(ratings, seasons[i].id, 0.0))
  }

  /** The chart's category labels: the season titles, in order. */
  function Labels(seasons: seq<Season>): seq<string> {
    seq(|seasons|, i requires 0 <= i < |seasons| => seasons[i].title)
  }

  /** The message shown after a failed save: the error text, or
      "Save failed" when that text is empty. */
  function FailureText(message: string): (t: string)
    ensures t != ""
    ensures message != "" ==> t == message
    ensures message == "" ==> t == SaveFailedMessage
  {
    if message != "" then message else SaveFailedMessage
  }

  /** The save button is disabled, and `onValidate` does nothing, unless the
      user is verified, the board is dirty and no save is running. */
  function SaveBlocked(emailVerified: bool, dirty: bool, saving: bool): bool {
    !emailVerified || !dirty || saving
  }

  /** The "unsaved changes" notice shows exactly when saving is possible. */
  function UnsavedNotice(emailVerified: bool, dirty: bool, saving: bool): (b: bool)
    ensures b <==> !SaveBlocked(emailVerified, dirty, saving)
  {
    dirty && emailVerified && !saving
  }

  class Board {
    const seasons: seq<Season>
    const emailVerified: bool
    /** The working copy. */
    var ratings: map<int, real>
    /** The last saved copy. */
    var saved: map<int, real>
    var saving: bool
    var msg: Option<string>
    /** The working copy the running save was started from: the `ratings`
        that its request was built from and that `saved` takes on success. */
    var submitted: map<int, real>

    /** Every season has an entry in both copies, and in the copy being saved. */
    ghost predicate Valid()
      reads this
    {
      SeasonIds(seasons) <= ratings.Keys && SeasonIds(seasons) <= saved.Keys
      && (saving ==> SeasonIds(seasons) <= submitted.Keys)
    }

    constructor (seasons: seq<Season>, initialRatings: map<int, real>, emailVerified: bool)
      ensures Valid()
      ensures this.seasons == seasons && this.emailVerified == emailVerified
      ensures ratings == InitialRatings(seasons, initialRatings) && saved == ratings
      ensures !saving && msg == None
      ensures !Dirty()
    {
      this.seasons := seasons;
      this.emailVerified := emailVerified;
      ratings := InitialRatings(seasons, initialRatings);
      saved := InitialRatings(seasons, initialRatings);
      saving := false;
      msg := None;
      submitted := map[];
      NotDirtyWhenEqual(seasons, InitialRatings(seasons, initialRatings));
    }

    function Dirty(): bool
      reads this
    {
      IsDirty(seasons, ratings, saved)
    }

    /** The save button's `disabled` attribute. */
    function SaveButtonDisabled(): bool
      reads this
    {
      SaveBlocked(emailVerified, Dirty(), saving)
    }

    /** The chart the board draws from its working copy: bar i's height and
        top edge show season i's working rating. */
    function Chart(): (d: BarChart.Drawing)
      reads this
      ensures |d.bars| == |seasons| && |d.categories| == |seasons|
      ensures var f := BarChart.FrameFor(|seasons|, None);
        forall i :: 0 <= i < |seasons| ==>
          && d.bars[i].rect.height == BarChart.BarH(f, Lookup(ratings, seasons[i].id, 0.0))
          && d.bars[i].rect.y == BarChart.Y(f, Lookup(ratings, seasons[i].id, 0.0))
          && d.bars[i].valueLabel.shown == Round(Lookup(ratings, seasons[i].id, 0.0))
          && d.categories[i].text == seasons[i].title
      ensures Valid() ==> forall i :: 0 <= i < |seasons| ==>
        d.bars[i].valueLabel.shown == Round(ratings[seasons[i].id])
    {
      BarChart.Render(Labels(seasons), Values(seasons, ratings), None)
    }

    /** `onChange(id, value)`: one edit of the working copy; it clears the message. */
    method OnChange(id: int, value: real)
      requires Valid()
      modifies this
      ensures Valid()
      ensures ratings == old(ratings)[id := value]
      ensures saved == old(saved) && saving == old(saving) && submitted == old(submitted)
      ensures msg == None
    {
      msg := None;
      ratings := ratings[id := value];
    }

    /** The first half of `onValidate`: unless blocked, mark the save as
        running, clear the message, and return the request built from the
        current working copy. */
    method BeginSave() returns (request: Option<seq<BatchItem>>)
      requires Valid()
      modifies this
      ensures Valid()
      ensures request.None? <==> old(SaveButtonDisabled())
      ensures old(SaveButtonDisabled()) ==>
        ratings == old(ratings) && saved == old(saved) && saving == old(saving)
        && msg == old(msg) && submitted == old(submitted)
      ensures !old(SaveButtonDisabled()) ==>
        request == Some(Batch(seasons, old(ratings)))
        && submitted == old(ratings) && saving && msg == None
        && ratings == old(ratings) && saved == old(saved)
      ensures request.Some? ==> forall i :: 0 <= i < |seasons| ==>
        request.value[i] == BatchItem(seasons[i].id, old(ratings)[seasons[i].id])
    {
      if SaveButtonDisabled() {
        return None;
      }
      saving := true;
      msg := None;
      submitted := ratings;
      request := Some(Batch(seasons, ratings));
    }

    /** The second half of `onValidate`: on success the saved copy becomes
        exactly what was submitted; on failure both copies stay as they
        are. Either way the save is no longer running. */
    method CompleteSave(outcome: SaveOutcome)
      requires Valid() && saving
      modifies this
      ensures Valid()
      ensures !saving && ratings == old(ratings) && submitted == old(submitted)
      ensures outcome.Success? ==> saved == old(submitted) && msg == Some(SavedMessage)
      ensures outcome.Failure? ==> saved == old(saved) && msg == Some(FailureText(outcome.message))
      ensures outcome.Success? && old(ratings) == old(submitted) ==> !Dirty()
    {
      match outcome {
        case Success =>
          saved := submitted;
          msg := Some(SavedMessage);
        case Failure(message) =>
          msg := Some(FailureText(message));
      }
      saving := false;
      NotDirtyWhenEqual(seasons, saved);
    }
  }

  /** After a successful save the saved copy holds exactly the submitted
      ratings, so the board is clean iff nothing was edited meanwhile. */
  lemma CleanAfterSuccess(seasons: seq<Season>, ratings: map<int, real>, submitted: map<int, real>)
    ensures Batch(seasons, submitted) == Batch(seasons, ratings) <==> !IsDirty(seasons, ratings, submitted)
  {
    BatchEqualIffClean(seasons, submitted, ratings);
    IsDirtyIff(seasons, ratings, submitted);
    IsDirtyIff(seasons, submitted, ratings);
  }

  /** Two seasons rated 80 and 20 against saved ratings of 50, with the save
      failing: both copies, and so the dirty flag, stay as they were, a second
      save is refused while the first runs, and the error text is shown. */
  method FailedSaveScenario()
  {
    var seasons := [Season(1, "Murder House"), Season(2, "Asylum")];
    var b := new Board(seasons, map[1 := 50.0, 2 := 50.0], true);
    b.OnChange(1, 80.0);
    b.OnChange(2, 20.0);
    ChangeMakesDirty(seasons, b.ratings, b.saved, 2, 20.0);
    var request := b.BeginSave();
    assert |request.value| == 2 && request.value[0] == BatchItem(1, 80.0) && request.value[1] == BatchItem(2, 20.0);
    assert request.value == [BatchItem(1, 80.0), BatchItem(2, 20.0)];
    var again := b.BeginSave();
    assert again == None;
    b.CompleteSave(Failure("network error"));
    assert b.ratings == map[1 := 80.0, 2 := 20.0] && b.saved == map[1 := 50.0, 2 := 50.0];
    assert b.msg == Some("network error");
    ChangeMakesDirty(seasons, b.ratings, b.saved, 2, 20.0);
    assert b.Dirty();
  }

  /** The same edits with the save succeeding and no edit in between: the
      board is clean, shows "Saved!", and its save button is disabled again. */
  method SuccessfulSaveScenario()
  {
    var seasons := [Season(1, "Murder House"), Season(2, "Asylum")];
    var b := new Board(seasons, map[1 := 50.0, 2 := 50.0], true);
    b.OnChange(1, 80.0);
    b.OnChange(2, 20.0);
    ChangeMakesDirty(seasons, b.ratings, b.saved, 2, 20.0);
    var request := b.BeginSave();
    assert request.Some?;
    b.CompleteSave(Success);
    assert b.saved == map[1 := 80.0, 2 := 20.0] && b.msg == Some(SavedMessage);
    assert !b.Dirty() && b.SaveButtonDisabled();
  }

  /** An edit made while a save runs is not covered by that save: after the
      save succeeds the board is still dirty. */
  method EditDuringSaveScenario()
  {
    var seasons := [Season(1, "Murder House"), Season(2, "Asylum")];
    var b := new Board(seasons, map[1 := 50.0, 2 := 50.0], true);
    b.OnChange(1, 80.0);
    ChangeMakesDirty(seasons, b.ratings, b.saved, 1, 80.0);
    var request := b.BeginSave();
    assert request.Some?;
    b.OnChange(1, 81.0);
    b.CompleteSave(Success);
    assert b.saved == map[1 := 80.0, 2 := 50.0] && b.msg == Some(SavedMessage);
    assert b.ratings == b.saved[1 := 81.0];
    ChangeMakesDirty(seasons, b.saved, b.saved, 1, 81.0);
    assert b.Dirty();
  }
}
