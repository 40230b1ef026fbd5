/**
 * The setup screen: the participant text box (one name per line), the start
 * button's validation per mode, and the prize list with add, remove and the
 * generated-image merge.
 */
module Setup {
  import opened Wrappers
  import opened Types
  import Js

  // ---------------------------------------------------------------------
  // Participants
  // ---------------------------------------------------------------------

  predicate IsNameLine(line: string) {
    !Js.IsBlank(line)
  }

  /** `participants.split('\n').filter(n => n.trim())`. */
  function ParticipantList(text: string): (names: seq<string>)
    ensures forall k :: 0 <= k < |names| ==> !Js.IsBlank(names[k]) && '\n' !in names[k]
  {
    Js.Filter(Js.Split(text, '\n'), IsNameLine)
  }

  /**
   * The participant list holds the lines of the text that are not blank,
   * each exactly as often as it occurs and without any trimming; it has no
   * line breaks inside a name.
   */
  lemma ParticipantListSpec(text: string)
    ensures forall k :: 0 <= k < |ParticipantList(text)| ==>
              IsNameLine(ParticipantList(text)[k]) && '\n' !in ParticipantList(text)[k]
    ensures forall line :: multiset(ParticipantList(text))[line]
              == if IsNameLine(line) then multiset(Js.Split(text, '\n'))[line] else 0
  {
    var lines := Js.Split(text, '\n');
    var r := ParticipantList(text);
    Js.FilterMultiset(lines, IsNameLine);
    forall k | 0 <= k < |r| ensures '\n' !in r[k] {
      assert multiset(r)[r[k]] > 0;
      assert r[k] in lines;
    }
  }

  /** Typing names one per line gives those names back, in order. */
  lemma ParticipantListOfLines(names: seq<string>)
    requires |names| >= 1
    requires forall k :: 0 <= k < |names| ==> '\n' !in names[k] && !Js.IsBlank(names[k])
    ensures ParticipantList(Js.Join(names, '\n')) == names
  {
    Js.SplitJoin(names, '\n');
    Js.FilterKeepsAll(names, IsNameLine);
  }

  /** Blank lines between names are ignored, wherever they occur. */
  lemma BlankLinesIgnored(before: seq<string>, blank: string, after: seq<string>)
    requires Js.IsBlank(blank)
    ensures Js.Filter(before + [blank] + after, IsNameLine) == Js.Filter(before + after, IsNameLine)
  {
    Js.FilterSkips(before, blank, after, IsNameLine);
  }

  // ---------------------------------------------------------------------
  // Start validation
  // ---------------------------------------------------------------------

  /** `canStart` for the given mode, participant count and prize count. */
  predicate CanStart(mode: AppMode, participantCount: nat, prizeCount: nat) {
    if mode == STANDARD then
      participantCount > 0 && prizeCount > 0 && participantCount >= prizeCount
    else
      participantCount >= 2
  }

  /**
   * A wheel session may start exactly when there is a prize and every prize
   * can get a different participant (as many prizes as names is allowed); an
   * exchange needs two people and does not look at the prizes.
   */
  lemma CanStartRules(participantCount: nat, prizeCount: nat, otherPrizeCount: nat)
    ensures CanStart(STANDARD, participantCount, prizeCount)
            <==> 1 <= prizeCount <= participantCount
    ensures CanStart(STANDARD, prizeCount, prizeCount) <==> prizeCount >= 1
    ensures CanStart(GIFT_EXCHANGE, participantCount, prizeCount)
            <==> CanStart(GIFT_EXCHANGE, participantCount, otherPrizeCount)
    ensures CanStart(GIFT_EXCHANGE, participantCount, prizeCount) <==> participantCount >= 2
  {
  }

  // ---------------------------------------------------------------------
  // Prizes
  // ---------------------------------------------------------------------

  /** `p => p.id !== id`. */
  function OtherId(id: string): Prize -> bool {
    (p: Prize) => p.id != id
  }

  /** `prizes.filter(p => p.id !== id)`. */
  function WithoutId(ps: seq<Prize>, id: string): seq<Prize> {
    Js.Filter(ps, OtherId(id))
  }

  /** Removing by id drops every prize with that id and keeps every other one, as often as before. */
  lemma WithoutIdMembers(ps: seq<Prize>, id: string)
    ensures forall p: Prize :: p in WithoutId(ps, id) <==> p in ps && p.id != id
    ensures forall p: Prize :: p.id != id ==> multiset(WithoutId(ps, id))[p] == multiset(ps)[p]
  {
    Js.FilterMultiset(ps, OtherId(id));
    forall p | p in WithoutId(ps, id) ensures p.id != id && p in ps {
      assert multiset(WithoutId(ps, id))[p] > 0;
    }
    forall p | p in ps && p.id != id ensures p in WithoutId(ps, id) {
      assert multiset(ps)[p] > 0;
    }
  }

  /** Removing by id keeps distinct ids distinct. */
  lemma {:induction false} WithoutIdKeepsUnique(ps: seq<Prize>, id: string)
    requires UniqueIds(ps)
    ensures UniqueIds(WithoutId(ps, id))
  {
    if ps != [] {
      WithoutIdKeepsUnique(ps[1..], id);
      var rest := WithoutId(ps[1..], id);
      forall k | 0 <= k < |rest| ensures rest[k].id != ps[0].id {
        var j :| 0 <= j < |ps[1..]| && ps[1..][j] == rest[k];
        assert ps[j + 1] == rest[k];
      }
      if OtherId(id)(ps[0]) {
        var r := [ps[0]] + rest;
        assert WithoutId(ps, id) == r;
        forall i, j | 0 <= i < j < |r| ensures r[i].id != r[j].id {
          assert r[j] == rest[j - 1];
          if i > 0 {
            assert r[i] == rest[i - 1];
          }
        }
      } else {
        assert WithoutId(ps, id) == rest;
      }
    }
  }

  /** A requested image for a prize: the prize's id and what the generator returned. */
  datatype ImageUpdate = ImageUpdate(id: string, url: Option<string>)

  /** `u => u.id === p.id`. */
  function ForPrize(p: Prize): ImageUpdate -> bool {
    (u: ImageUpdate) => u.id == p.id
  }

  /** `updates.find(u => u.id === p.id)`. */
  function UpdateFor(updates: seq<ImageUpdate>, p: Prize): Option<ImageUpdate> {
    Js.Find(updates, ForPrize(p))
  }

  /** `update && update.url ? { ...p, imageUrl: update.url } : p`. */
  function MergeOne(p: Prize, update: Option<ImageUpdate>): Prize {
    if update.Some? && update.value.url.Some? && update.value.url.value != ""
    then p.(imageUrl := update.value.url)
    else p
  }

  /** `prev.map(p => ...)`: each prize picks up the image its first update returned. */
  function MergeImages(ps: seq<Prize>, updates: seq<ImageUpdate>): (r: seq<Prize>)
    ensures |r| == |ps|
  {
    seq(|ps|, i requires 0 <= i < |ps| => MergeOne(ps[i], UpdateFor(updates, ps[i])))
  }

  /**
   * The merge keeps the length, order, ids, names and winners; a prize's image
   * changes only to a non-empty URL that an update with its id returned.
   */
  lemma MergeImagesSpec(ps: seq<Prize>, updates: seq<ImageUpdate>)
    ensures |MergeImages(ps, updates)| == |ps|
    ensures Ids(MergeImages(ps, updates)) == Ids(ps)
    ensures forall i :: 0 <= i < |ps| ==>
              && MergeImages(ps, updates)[i].name == ps[i].name
              && MergeImages(ps, updates)[i].winner == ps[i].winner
    ensures forall i :: 0 <= i < |ps| && MergeImages(ps, updates)[i].imageUrl != ps[i].imageUrl ==>
              exists u :: u in updates && u.id == ps[i].id && u.url == MergeImages(ps, updates)[i].imageUrl
                          && HasImage(MergeImages(ps, updates)[i])
    ensures forall i, j :: 0 <= i < |ps| && 0 <= j < |updates| && updates[j].id == ps[i].id
                           && (forall k :: 0 <= k < j ==> updates[k].id != ps[i].id)
                           && updates[j].url.Some? && updates[j].url.value != "" ==>
              MergeImages(ps, updates)[i] == ps[i].(imageUrl := updates[j].url)
    ensures forall i :: 0 <= i < |ps| && (forall u :: u in updates ==> u.id != ps[i].id) ==>
              MergeImages(ps, updates)[i] == ps[i]
  {
    forall i, j | 0 <= i < |ps| && 0 <= j < |updates| && updates[j].id == ps[i].id
                  && (forall k :: 0 <= k < j ==> updates[k].id != ps[i].id)
      ensures UpdateFor(updates, ps[i]) == Some(updates[j])
    {
      assert ForPrize(ps[i])(updates[j]);
      var m :| 0 <= m < |updates| && updates[m] == UpdateFor(updates, ps[i]).value && ForPrize(ps[i])(updates[m])
               && forall k :: 0 <= k < m ==> !ForPrize(ps[i])(updates[k]);
    }
    forall i | 0 <= i < |ps| && (forall u :: u in updates ==> u.id != ps[i].id)
      ensures UpdateFor(updates, ps[i]).None?
    {
      forall k | 0 <= k < |updates| ensures !ForPrize(ps[i])(updates[k]) {
        assert updates[k] in updates;
      }
    }
    forall i | 0 <= i < |ps| && MergeImages(ps, updates)[i].imageUrl != ps[i].imageUrl
      ensures exists u :: u in updates && u.id == ps[i].id && u.url == MergeImages(ps, updates)[i].imageUrl
                          && HasImage(MergeImages(ps, updates)[i])
    {
      var u := UpdateFor(updates, ps[i]);
      var j :| 0 <= j < |updates| && updates[j] == u.value && u.value.id == ps[i].id;
      assert updates[j] in updates;
    }
  }

  /** The updates for the prizes sent to the generator, paired with what it returned. */
  function ImageUpdates(requested: seq<Prize>, urls: seq<Option<string>>): seq<ImageUpdate>
    requires |urls| == |requested|
  {
    seq(|requested|, i requires 0 <= i < |requested| => ImageUpdate(requested[i].id, urls[i]))
  }

  /**
   * Merging the generator's answers: a prize gets the non-empty URL answered
   * for the first request with its id, and a prize no request names is kept.
   */
  lemma MergeRequestedImages(ps: seq<Prize>, requested: seq<Prize>, urls: seq<Option<string>>)
    requires |urls| == |requested|
    ensures var merged := MergeImages(ps, ImageUpdates(requested, urls));
            forall i, j :: 0 <= i < |ps| && 0 <= j < |requested| && requested[j].id == ps[i].id
                           && (forall k :: 0 <= k < j ==> requested[k].id != requested[j].id)
                           && urls[j].Some? && urls[j].value != "" ==>
              merged[i] == ps[i].(imageUrl := urls[j])
    ensures var merged := MergeImages(ps, ImageUpdates(requested, urls));
            forall i :: 0 <= i < |ps| && (forall q :: q in requested ==> q.id != ps[i].id) ==>
              merged[i] == ps[i]
  {
    var updates := ImageUpdates(requested, urls);
    MergeImagesSpec(ps, updates);
    assert forall k :: 0 <= k < |updates| ==> updates[k].id == requested[k].id && updates[k].url == urls[k];
    forall i | 0 <= i < |ps| && (forall q :: q in requested ==> q.id != ps[i].id)
      ensures forall u :: u in updates ==> u.id != ps[i].id
    {
      forall u | u in updates ensures u.id != ps[i].id {
        var j :| 0 <= j < |updates| && updates[j] == u;
        assert requested[j] in requested;
      }
    }
  }

  predicate LacksImage(p: Prize) {
    !HasImage(p)
  }

  /** `prizes.filter(p => !p.imageUrl)`. */
  function PrizesWithoutImages(ps: seq<Prize>): seq<Prize> {
    Js.Filter(ps, LacksImage)
  }

  class SetupView {
    var prizes: seq<Prize>
    var newPrizeName: string
    var isGenerating: bool
    /** The prizes the running generation asked images for. */
    var requested: seq<Prize>

    /**
     * Prize ids are distinct; while images are being generated, every prize
     * whose id was sent to the generator is still without an image.
     */
    ghost predicate Valid()
      reads this
    {
      && UniqueIds(prizes)
      && (isGenerating ==>
            forall q, p :: q in requested && p in prizes && p.id == q.id ==> !HasImage(p))
    }

    constructor (prizes: seq<Prize>)
      requires UniqueIds(prizes)
      ensures Valid()
      ensures this.prizes == prizes && newPrizeName == "" && !isGenerating && requested == []
    {
      this.prizes := prizes;
      newPrizeName := "";
      isGenerating := false;
      requested := [];
    }

    /** The prize-name input's `onChange`. */
    method TypePrizeName(text: string)
      requires Valid()
      modifies this`newPrizeName
      ensures Valid() && newPrizeName == text
    {
      newPrizeName := text;
    }

    /**
     * `addPrize`: a blank name changes nothing; otherwise one prize named by
     * the trimmed input, with the fresh id `freshId` (`crypto.randomUUID()`),
     * is appended after the existing ones and the input is cleared.
     */
    method AddPrize(freshId: string)
      requires Valid()
      requires freshId !in Ids(prizes)
      modifies this`prizes, this`newPrizeName
      ensures Valid()
      ensures Js.IsBlank(old(newPrizeName)) ==> prizes == old(prizes) && newPrizeName == old(newPrizeName)
      ensures !Js.IsBlank(old(newPrizeName)) ==>
                && prizes == old(prizes) + [Prize(freshId, Js.Trim(old(newPrizeName)), None, None)]
                && prizes[|prizes| - 1].name != ""
                && newPrizeName == ""
    {
      if Js.IsBlank(newPrizeName) {
        return;
      }
      var newPrize := Prize(freshId, Js.Trim(newPrizeName), None, None);
      assert forall k :: 0 <= k < |prizes| ==> Ids(prizes)[k] == prizes[k].id;
      prizes := prizes + [newPrize];
      newPrizeName := "";
    }

    /** `removePrize`: drop the prizes with this id, keep the others in order. */
    method RemovePrize(id: string)
      requires Valid()
      modifies this`prizes
      ensures Valid()
      ensures prizes == WithoutId(old(prizes), id)
      ensures forall p :: p in prizes ==> p.id != id && p in old(prizes)
      ensures forall p :: p in old(prizes) && p.id != id ==> p in prizes
    {
      WithoutIdMembers(prizes, id);
      WithoutIdKeepsUnique(prizes, id);
      prizes := WithoutId(prizes, id);
    }

    /**
     * The first half of `generateImages`: mark the generation as running and
     * return the prizes without an image, whose names go to the generator.
     */
    method BeginGenerateImages() returns (toGenerate: seq<Prize>)
      requires Valid() && !isGenerating
      modifies this`isGenerating, this`requested
      ensures Valid()
      ensures isGenerating && requested == toGenerate
      ensures toGenerate == PrizesWithoutImages(prizes)
      ensures forall p :: p in toGenerate ==> p in prizes && !HasImage(p)
    {
      toGenerate := PrizesWithoutImages(prizes);
      Js.FilterMultiset(prizes, LacksImage);
      forall q, p | q in toGenerate && p in prizes && p.id == q.id ensures !HasImage(p) {
        assert q in prizes;
        var i :| 0 <= i < |prizes| && prizes[i] == p;
        var j :| 0 <= j < |prizes| && prizes[j] == q;
        assert i == j;
      }
      isGenerating := true;
      requested := toGenerate;
    }

    /**
     * The second half: `urls[i]` is what the generator returned for
     * `requested[i]`. The current prizes keep their order and ids, and a prize
     * gets an image only if it had none and its request returned a non-empty URL.
     */
    method FinishGenerateImages(urls: seq<Option<string>>)
      requires Valid() && isGenerating && |urls| == |requested|
      modifies this`prizes, this`isGenerating
      ensures Valid()
      ensures !isGenerating
      ensures prizes == MergeImages(old(prizes), ImageUpdates(requested, urls))
      ensures Ids(prizes) == Ids(old(prizes))
      ensures forall i :: 0 <= i < |prizes| && prizes[i] != old(prizes)[i] ==>
                !HasImage(old(prizes)[i]) && HasImage(prizes[i])
      ensures forall i, j :: 0 <= i < |prizes| && 0 <= j < |requested| && requested[j].id == old(prizes)[i].id
                             && (forall k :: 0 <= k < j ==> requested[k].id != requested[j].id)
                             && urls[j].Some? && urls[j].value != "" ==>
                prizes[i] == old(prizes)[i].(imageUrl := urls[j])
      ensures forall i :: 0 <= i < |prizes| && (forall q :: q in requested ==> q.id != old(prizes)[i].id) ==>
                prizes[i] == old(prizes)[i]
    {
      var updates := ImageUpdates(requested, urls);
      MergeImagesSpec(prizes, updates);
      MergeRequestedImages(prizes, requested, urls);
      ghost var before := prizes;
      prizes := MergeImages(prizes, updates);
      forall i | 0 <= i < |prizes| && prizes[i] != before[i]
        ensures !HasImage(before[i]) && HasImage(prizes[i])
      {
        assert prizes[i].imageUrl != before[i].imageUrl;
        var u :| u in updates && u.id == before[i].id && u.url == prizes[i].imageUrl && HasImage(prizes[i]);
        var j :| 0 <= j < |updates| && updates[j] == u;
        assert requested[j] in requested;
        assert before[i] in before;
      }
      assert forall k :: 0 <= k < |prizes| ==> prizes[k].id == Ids(prizes)[k] == Ids(before)[k] == before[k].id;
      isGenerating := false;
    }
  }
}
