/**
 * The drawing screen: the prize wheel of the standard mode (spin, then a
 * deferred reveal that commits the winner), the one-shot shuffle-and-assign of
 * the gift-exchange mode, and the slice layout the wheel is drawn with.
 */
module Drawing {
  import opened Wrappers
  import opened Types
  import Js
  import opened WheelGeometry

  /** The ten slice colours, used in turn. */
  const WheelColors: seq<string> := [
    "#ef4444", "#f97316", "#f59e0b", "#84cc16", "#10b981",
    "#06b6d4", "#3b82f6", "#8b5cf6", "#d946ef", "#f43f5e"
  ]

  // ---------------------------------------------------------------------
  // Slice layout
  // ---------------------------------------------------------------------

  /** One wedge of the wheel: its angular span, label anchor angle, fill, label size and label. */
  datatype Sector = Sector(startAngle: real, endAngle: real, midAngle: real,
                           color: string, fontSize: string, text: string)

  /** What the wheel shows: nothing, one full disc, or a wedge per name. */
  datatype WheelDrawing = NoWheel | FullCircle(color: string, text: string) | Sectors(slices: seq<Sector>)

  /** Label size: smaller as the wheel gets more crowded. */
  function FontSize(total: nat): string {
    if total > 40 then "1.8" else if total > 20 then "2.6" else "3.6"
  }

  /** The wedge drawn for position `i` of the pool. */
  function SectorAt(pool: seq<string>, i: nat): (s: Sector)
    requires i < |pool|
    ensures s.text == pool[i] && s.color in WheelColors
  {
    var n := |pool|;
    Sector(SliceStart(i, n), SliceEnd(i, n), MidAngle(i, n),
           WheelColors[i % |WheelColors|], FontSize(n), pool[i])
  }

  /**
   * The slices of the wheel for the names still in the pool: none for an empty
   * pool, one full disc for a single name, otherwise wedge `i` for name `i`.
   */
  method WheelSlices(pool: seq<string>) returns (d: WheelDrawing)
    ensures |pool| == 0 <==> d == NoWheel
    ensures |pool| == 1 <==> d.FullCircle?
    ensures |pool| == 1 ==> d == FullCircle(WheelColors[0], pool[0])
    ensures |pool| >= 2 ==> d.Sectors? && |d.slices| == |pool|
    ensures |pool| >= 2 ==> forall i :: 0 <= i < |pool| ==> d.slices[i] == SectorAt(pool, i)
  {
    var total := |pool|;
    if total == 0 {
      return NoWheel;
    }
    if total == 1 {
      return FullCircle(WheelColors[0], pool[0]);
    }
    var slices: seq<Sector> := [];
    for i := 0 to total
      invariant |slices| == i
      invariant forall j :: 0 <= j < i ==> slices[j] == SectorAt(pool, j)
    {
      var startAngle := (i as real * 360.0) / total as real;
      var endAngle := ((i + 1) as real * 360.0) / total as real;
      var midAngle := (startAngle + endAngle) / 2.0;
      slices := slices + [Sector(startAngle, endAngle, midAngle, WheelColors[i % |WheelColors|],
                                 FontSize(total), pool[i])];
    }
    d := Sectors(slices);
  }

  /**
   * Drawing and geometry agree: after a spin picks position `k`, the wedge
   * labelled with the winner's name is the one the pointer rests in, its label
   * sits at the point the spin aimed for, and no other wedge is under the pointer.
   */
  lemma WinnerSectorUnderPointer(pool: seq<string>, rot: real, rIndex: real, rTurns: real, rOffset: real)
    requires |pool| > 0 && rot >= 0.0
    requires IsUnitRandom(rIndex) && IsUnitRandom(rTurns) && IsUnitRandom(rOffset)
    ensures var k := PickIndex(rIndex, |pool|);
            var a := AngleUnderPointer(FinalRotation(rot, |pool|, k, rTurns, rOffset));
            && SectorAt(pool, k).text == pool[k]
            && SectorAt(pool, k).midAngle == SliceCenter(k, |pool|)
            && SectorAt(pool, k).startAngle < a < SectorAt(pool, k).endAngle
            && forall j :: 0 <= j < |pool| && SectorAt(pool, j).startAngle <= a < SectorAt(pool, j).endAngle
                 ==> j == k
  {
    var n := |pool|;
    var k := PickIndex(rIndex, n);
    var a := AngleUnderPointer(FinalRotation(rot, n, k, rTurns, rOffset));
    PointerLandsInWinnerSlice(rot, n, k, rTurns, rOffset);
    MidAngleIsSliceCenter(k, n);
    forall j | 0 <= j < n && SectorAt(pool, j).startAngle <= a < SectorAt(pool, j).endAngle
      ensures j == k
    {
      SlicesDisjoint(a, j, k, n);
    }
  }

  /** Slice colours cycle through the palette: consecutive wedges `i` and `i + 1` never share a colour. */
  lemma NeighbourColoursDiffer(pool: seq<string>, i: nat)
    requires i + 1 < |pool|
    ensures SectorAt(pool, i).color != SectorAt(pool, i + 1).color
  {
    var c := |WheelColors|;
    assert (i + 1) % c == if i % c == c - 1 then 0 else i % c + 1;
  }

  /**
   * The last wedge ends at 360°, where the first one starts, so the two touch
   * on the disc; they share the first palette colour exactly when the number
   * of names is one more than a multiple of ten.
   */
  lemma FirstLastColours(pool: seq<string>)
    requires |pool| >= 2
    ensures SectorAt(pool, |pool| - 1).color == SectorAt(pool, 0).color <==> |pool| % 10 == 1
  {
    var n := |pool|;
    assert forall k :: 1 <= k < |WheelColors| ==> WheelColors[k][1] != WheelColors[0][1];
    assert (n - 1) % 10 == 0 <==> n % 10 == 1;
  }

  // ---------------------------------------------------------------------
  // Gift-exchange batch
  // ---------------------------------------------------------------------

  function Min(a: int, b: int): int {
    if a <= b then a else b
  }

  /** Prize `i` goes to shuffled participant `i`; prizes past the end of the list are dropped. */
  function BatchResult(prizes: seq<Prize>, shuffled: seq<string>): (r: seq<Prize>)
    ensures |r| <= |prizes| && |r| <= |shuffled|
    ensures forall i :: 0 <= i < |r| ==> r[i].winner == Some(shuffled[i])
  {
    seq(Min(|prizes|, |shuffled|),
        i requires 0 <= i < Min(|prizes|, |shuffled|) => prizes[i].(winner := Some(shuffled[i])))
  }

  /** The `forEach` that pairs each prize with the shuffled participant at the same index. */
  method AssignBatch(prizes: seq<Prize>, shuffled: seq<string>) returns (newWinners: seq<Prize>)
    ensures newWinners == BatchResult(prizes, shuffled)
  {
    newWinners := [];
    for index := 0 to |prizes|
      invariant newWinners == BatchResult(prizes[..index], shuffled)
    {
      if index < |shuffled| {
        newWinners := newWinners + [prizes[index].(winner := Some(shuffled[index]))];
      }
    }
    assert prizes[..|prizes|] == prizes;
  }

  /**
   * The batch keeps the prizes' order and ids, and hands them to the first
   * shuffled participants; so no participant position is used twice.
   */
  lemma BatchResultShape(prizes: seq<Prize>, shuffled: seq<string>)
    ensures var r := BatchResult(prizes, shuffled);
            && |r| == Min(|prizes|, |shuffled|)
            && Ids(r) == Ids(prizes)[..|r|]
            && WinnerNames(r) == shuffled[..|r|]
            && (forall w :: w in r ==> w.winner.Some?)
            && multiset(WinnerNames(r)) <= multiset(shuffled)
  {
    var r := BatchResult(prizes, shuffled);
    assert shuffled == shuffled[..|r|] + shuffled[|r|..];
    assert multiset(shuffled) == multiset(shuffled[..|r|]) + multiset(shuffled[|r|..]);
  }

  /**
   * In an exchange with one numbered slot per participant and a shuffle that
   * is a permutation of the participants, every slot is handed out once and
   * every participant receives exactly one slot.
   */
  lemma ExchangeAssignsEveryoneOnce(prizes: seq<Prize>, participants: seq<string>, shuffled: seq<string>)
    requires |prizes| == |participants|
    requires multiset(shuffled) == multiset(participants)
    ensures Ids(BatchResult(prizes, shuffled)) == Ids(prizes)
    ensures multiset(WinnerNames(BatchResult(prizes, shuffled))) == multiset(participants)
  {
    assert |shuffled| == |participants| by {
      assert |multiset(shuffled)| == |shuffled|;
    }
    BatchResultShape(prizes, shuffled);
    assert Ids(prizes)[..|prizes|] == Ids(prizes);
    assert shuffled[..|shuffled|] == shuffled;
  }

  /**
   * No participant is drawn twice: every winner entry names its winner, in
   * the wheel mode the pool and the winners together are exactly the
   * participants, and in either mode the winners come from the participants.
   */
  ghost predicate NoDoubleDraw(participants: seq<string>, pool: seq<string>, winners: seq<Prize>, isBatchMode: bool) {
    && (forall w :: w in winners ==> w.winner.Some?)
    && (!isBatchMode ==> multiset(pool) + multiset(WinnerNames(winners)) == multiset(participants))
    && multiset(WinnerNames(winners)) <= multiset(participants)
  }

  /**
   * Committing a draw moves one name from the pool to the winners: the pool and
   * the winner names together still hold the same names, as often as before.
   */
  lemma CommitMovesOneName(pool: seq<string>, ws: seq<Prize>, k: nat, entry: Prize)
    requires k < |pool| && entry.winner == Some(pool[k])
    ensures multiset(Js.RemoveAt(pool, k)) + multiset(WinnerNames(ws + [entry]))
            == multiset(pool) + multiset(WinnerNames(ws))
  {
    WinnerNamesAppend(ws, entry);
    assert multiset(WinnerNames(ws) + [pool[k]]) == multiset(WinnerNames(ws)) + multiset{pool[k]};
  }

  /** A wheel-mode commit keeps every participant drawn at most once. */
  lemma CommitKeepsNoDoubleDraw(participants: seq<string>, pool: seq<string>, ws: seq<Prize>, k: nat, entry: Prize)
    requires NoDoubleDraw(participants, pool, ws, false)
    requires k < |pool| && entry.winner == Some(pool[k])
    ensures NoDoubleDraw(participants, Js.RemoveAt(pool, k), ws + [entry], false)
  {
    CommitMovesOneName(pool, ws, k, entry);
  }

  // ---------------------------------------------------------------------
  // The component
  // ---------------------------------------------------------------------

  /** `p => p.id === activePrizeId`. */
  function IsSelected(activePrizeId: Option<string>): Prize -> bool {
    (p: Prize) => activePrizeId == Some(p.id)
  }

  /** `prizes.find(p => p.id === activePrizeId)`. */
  function SelectedPrize(prizes: seq<Prize>, activePrizeId: Option<string>): Option<Prize> {
    Js.Find(prizes, IsSelected(activePrizeId))
  }

  /**
   * With no prize selected there is no active prize; with `id` selected the
   * active prize is the first prize with that id, and there is one exactly
   * when some prize has that id.
   */
  lemma SelectedPrizeSpec(prizes: seq<Prize>, id: string)
    ensures SelectedPrize(prizes, None) == None
    ensures SelectedPrize(prizes, Some(id)).Some? <==> id in Ids(prizes)
    ensures SelectedPrize(prizes, Some(id)).Some? ==>
              exists i :: 0 <= i < |prizes| && prizes[i] == SelectedPrize(prizes, Some(id)).value
                          && prizes[i].id == id && forall j :: 0 <= j < i ==> prizes[j].id != id
  {
    if id in Ids(prizes) {
      var i :| 0 <= i < |prizes| && Ids(prizes)[i] == id;
      assert IsSelected(Some(id))(prizes[i]);
    }
    if SelectedPrize(prizes, Some(id)).Some? {
      var i :| 0 <= i < |prizes| && prizes[i] == SelectedPrize(prizes, Some(id)).value
               && IsSelected(Some(id))(prizes[i])
               && forall j :: 0 <= j < i ==> !IsSelected(Some(id))(prizes[j]);
      assert Ids(prizes)[i] == id;
    }
  }

  /** What the 8-second reveal timer closed over when the spin started. */
  datatype PendingSpin = PendingSpin(winnerIndex: nat, winnerName: string, prize: Option<Prize>)

  class DrawingView {
    const participants: seq<string>
    const prizes: seq<Prize>
    const isBatchMode: bool

    var activePrizeId: Option<string>
    var winners: seq<Prize>
    var availableParticipants: seq<string>
    var wheelRotation: real
    var isSpinning: bool
    var winnerModalOpen: bool
    var currentWinnerName: string
    var batchRevealed: bool
    var isBatchShuffling: bool
    /** The reveal callback scheduled by the running spin, if any. */
    var pendingSpin: Option<PendingSpin>
    /** Shuffle callbacks scheduled and not yet run. */
    var pendingBatches: nat

    /**
     * The rotation never goes negative; a reveal is pending exactly while the
     * wheel spins, and it points at the name it will commit; and no
     * participant is drawn twice: in the wheel mode the pool and the winners
     * together are exactly the participants, and in either mode the winners
     * come from the participants.
     */
    ghost predicate Valid()
      reads this
    {
      && wheelRotation >= 0.0
      && (isSpinning <==> pendingSpin.Some?)
      && (pendingSpin.Some? ==>
            && !isBatchMode
            && pendingSpin.value.winnerIndex < |availableParticipants|
            && availableParticipants[pendingSpin.value.winnerIndex] == pendingSpin.value.winnerName)
      && (pendingBatches > 0 ==> isBatchMode)
      && NoDoubleDraw(participants, availableParticipants, winners, isBatchMode)
    }

    /** `prizes.find(p => p.id === activePrizeId)`. */
    function ActivePrize(): Option<Prize>
      reads this
    {
      SelectedPrize(prizes, activePrizeId)
    }

    constructor (participants: seq<string>, prizes: seq<Prize>, isBatchMode: bool)
      ensures Valid()
      ensures this.participants == participants && this.prizes == prizes && this.isBatchMode == isBatchMode
      ensures availableParticipants == participants && winners == [] && activePrizeId == None
      ensures wheelRotation == 0.0 && !isSpinning && !winnerModalOpen && currentWinnerName == ""
      ensures !batchRevealed && !isBatchShuffling && pendingSpin == None && pendingBatches == 0
    {
      this.participants := participants;
      this.prizes := prizes;
      this.isBatchMode := isBatchMode;
      activePrizeId := None;
      winners := [];
      availableParticipants := participants;
      wheelRotation := 0.0;
      isSpinning := false;
      winnerModalOpen := false;
      currentWinnerName := "";
      batchRevealed := false;
      isBatchShuffling := false;
      pendingSpin := None;
      pendingBatches := 0;
    }

    /**
     * `spinWheel`: unless a spin is running or the pool is empty, pick the
     * winner's position from `rIndex`, aim the wheel with `rTurns` and
     * `rOffset`, and schedule the reveal. The wheel only moves forward and its
     * target puts the winner's slice under the pointer.
     */
    method StartSpin(rIndex: real, rTurns: real, rOffset: real)
      requires Valid() && !isBatchMode
      requires IsUnitRandom(rIndex) && IsUnitRandom(rTurns) && IsUnitRandom(rOffset)
      modifies this
      ensures Valid()
      ensures old(isSpinning || |availableParticipants| == 0) ==> unchanged(this)
      ensures !old(isSpinning || |availableParticipants| == 0) ==>
                var n := old(|availableParticipants|);
                var k := PickIndex(rIndex, n);
                && isSpinning
                && pendingSpin == Some(PendingSpin(k, old(availableParticipants)[k], old(ActivePrize())))
                && wheelRotation == FinalRotation(old(wheelRotation), n, k, rTurns, rOffset)
                && wheelRotation > old(wheelRotation)
                && SliceAt(AngleUnderPointer(wheelRotation), n) == k
                && availableParticipants == old(availableParticipants) && winners == old(winners)
                && activePrizeId == old(activePrizeId) && winnerModalOpen == old(winnerModalOpen)
                && currentWinnerName == old(currentWinnerName) && batchRevealed == old(batchRevealed)
                && isBatchShuffling == old(isBatchShuffling) && pendingBatches == old(pendingBatches)
    {
      if isSpinning || |availableParticipants| == 0 {
        return;
      }
      isSpinning := true;
      var n := |availableParticipants|;
      var winnerIndex := PickIndex(rIndex, n);
      var winnerName := availableParticipants[winnerIndex];
      var finalRotation := FinalRotation(wheelRotation, n, winnerIndex, rTurns, rOffset);
      PointerLandsInWinnerSlice(wheelRotation, n, winnerIndex, rTurns, rOffset);
      SpinMovesForward(wheelRotation, n, winnerIndex, rTurns, rOffset);
      pendingSpin := Some(PendingSpin(winnerIndex, winnerName, ActivePrize()));
      wheelRotation := finalRotation;
    }

    /**
     * The reveal timer: stop spinning, show the winner, and, when the spin
     * closed over an active prize, append that prize with its winner and
     * remove exactly the drawn position from the pool.
     */
    method Reveal()
      requires Valid() && pendingSpin.Some?
      modifies this
      ensures Valid()
      ensures var p := old(pendingSpin).value;
              && !isSpinning && pendingSpin == None
              && currentWinnerName == p.winnerName && winnerModalOpen
              && (p.prize.Some? ==>
                    && winners == old(winners) + [p.prize.value.(winner := Some(p.winnerName))]
                    && availableParticipants == Js.RemoveAt(old(availableParticipants), p.winnerIndex))
              && (p.prize.None? ==>
                    winners == old(winners) && availableParticipants == old(availableParticipants))
      ensures wheelRotation == old(wheelRotation) && activePrizeId == old(activePrizeId)
      ensures batchRevealed == old(batchRevealed) && isBatchShuffling == old(isBatchShuffling)
      ensures pendingBatches == old(pendingBatches)
    {
      var p := pendingSpin.value;
      if p.prize.Some? {
        Commit(p.winnerIndex, p.prize.value.(winner := Some(p.winnerName)));
      }
      isSpinning := false;
      pendingSpin := None;
      currentWinnerName := p.winnerName;
      winnerModalOpen := true;
    }

    /**
     * The reveal's `if (activePrize)` block: append the winner entry and
     * remove the drawn position from a copy of the pool.
     */
    method Commit(k: nat, entry: Prize)
      requires NoDoubleDraw(participants, availableParticipants, winners, false)
      requires k < |availableParticipants| && entry.winner == Some(availableParticipants[k])
      modifies this`winners, this`availableParticipants
      ensures NoDoubleDraw(participants, availableParticipants, winners, false)
      ensures winners == old(winners) + [entry]
      ensures availableParticipants == Js.RemoveAt(old(availableParticipants), k)
    {
      CommitKeepsNoDoubleDraw(participants, availableParticipants, winners, k, entry);
      winners := winners + [entry];
      availableParticipants := Js.RemoveAt(availableParticipants, k);
    }

    /** `handleBackToList`: deselect the prize and close the winner dialog. */
    method HandleBackToList()
      requires Valid()
      modifies this`activePrizeId, this`winnerModalOpen
      ensures Valid()
      ensures activePrizeId == None && !winnerModalOpen
    {
      activePrizeId := None;
      winnerModalOpen := false;
    }

    /**
     * Selecting the prize to draw for: the step a prize list on this screen
     * would perform. The screen as written has no such step (see
     * `DrawOnceAsWritten`); `DrawOnceCorrected` uses it.
     */
    method SelectPrize(id: string)
      requires Valid()
      modifies this`activePrizeId
      ensures Valid() && activePrizeId == Some(id)
    {
      activePrizeId := Some(id);
    }

    /** `startBatchDraw`: show the shuffling state and schedule the shuffle. */
    method StartBatchDraw()
      requires Valid() && isBatchMode
      modifies this`isBatchShuffling, this`pendingBatches
      ensures Valid()
      ensures isBatchShuffling && pendingBatches == old(pendingBatches) + 1
    {
      isBatchShuffling := true;
      pendingBatches := pendingBatches + 1;
    }

    /**
     * The shuffle timer: with `shuffled` a permutation of the participants,
     * the winners become the batch pairing, and the screen moves to the revealed state.
     */
    method RevealBatch(shuffled: seq<string>)
      requires Valid() && pendingBatches > 0
      requires multiset(shuffled) == multiset(participants)
      modifies this`winners, this`isBatchShuffling, this`batchRevealed, this`pendingBatches
      ensures Valid()
      ensures winners == BatchResult(prizes, shuffled)
      ensures !isBatchShuffling && batchRevealed && pendingBatches == old(pendingBatches) - 1
    {
      var newWinners := AssignBatch(prizes, shuffled);
      BatchResultShape(prizes, shuffled);
      winners := newWinners;
      isBatchShuffling := false;
      batchRevealed := true;
      pendingBatches := pendingBatches - 1;
    }
  }

  // ---------------------------------------------------------------------
  // One wheel draw, as written and as evidently intended
  // ---------------------------------------------------------------------

  /**
   * One wheel draw on a fresh screen with the handlers as written: no
   * handler ever selects a prize, so the reveal shows the drawn name but
   * records no winner, and the drawn name stays in the pool.
   */
  method DrawOnceAsWritten(participants: seq<string>, prizes: seq<Prize>, rIndex: real, rTurns: real, rOffset: real)
    returns (recorded: seq<Prize>, pool: seq<string>, shown: string)
    requires |participants| > 0
    requires IsUnitRandom(rIndex) && IsUnitRandom(rTurns) && IsUnitRandom(rOffset)
    ensures shown == participants[PickIndex(rIndex, |participants|)]
    ensures recorded == [] && pool == participants
  {
    SelectedPrizeSpec(prizes, "");
    var view := new DrawingView(participants, prizes, false);
    view.StartSpin(rIndex, rTurns, rOffset);
    view.Reveal();
    recorded, pool, shown := view.winners, view.availableParticipants, view.currentWinnerName;
  }

  /**
   * The same draw after selecting the prize with id `id`: the prize is
   * recorded with the drawn name as its winner, and exactly that name
   * leaves the pool.
   */
  method DrawOnceCorrected(participants: seq<string>, prizes: seq<Prize>, id: string,
                           rIndex: real, rTurns: real, rOffset: real)
    returns (recorded: seq<Prize>, pool: seq<string>, shown: string)
    requires |participants| > 0 && id in Ids(prizes)
    requires IsUnitRandom(rIndex) && IsUnitRandom(rTurns) && IsUnitRandom(rOffset)
    ensures shown == participants[PickIndex(rIndex, |participants|)]
    ensures SelectedPrize(prizes, Some(id)).Some?
            && recorded == [SelectedPrize(prizes, Some(id)).value.(winner := Some(shown))]
    ensures |recorded| == 1 && recorded[0].id == id
    ensures pool == Js.RemoveAt(participants, PickIndex(rIndex, |participants|))
    ensures multiset(pool) + multiset{shown} == multiset(participants)
  {
    SelectedPrizeSpec(prizes, id);
    var view := new DrawingView(participants, prizes, false);
    view.SelectPrize(id);
    view.StartSpin(rIndex, rTurns, rOffset);
    view.Reveal();
    recorded, pool, shown := view.winners, view.availableParticipants, view.currentWinnerName;
  }
}
