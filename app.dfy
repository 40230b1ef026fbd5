/**
 * The application shell: which screen is shown, the draw settings it holds
 * for the setup screen, the prizes handed to the drawing screen (numbered
 * prizes in gift-exchange mode) and the results handed to the results screen.
 */
module Shell {
  import opened Wrappers
  import opened Types
  import Js
  import Setup
  import Drawing

  // ---------------------------------------------------------------------
  // Numbered prizes for a gift exchange
  // ---------------------------------------------------------------------

  /** The exchange prize at position `i`: id `num-<i+1>`, name `No. <i+1>`, no image, no winner. */
  function NumberPrize(i: nat): Prize {
    Prize("num-" + Js.Decimal(i + 1), "No. " + Js.Decimal(i + 1), None, None)
  }

  /** `names.map((_, i) => ({ id: `num-${i + 1}`, name: `No. ${i + 1}` }))`. */
  function NumberPrizes(names: seq<string>): (ps: seq<Prize>)
    ensures |ps| == |names|
  {
    seq(|names|, i requires 0 <= i < |names| => NumberPrize(i))
  }

  /**
   * One numbered prize per name; the ids are pairwise distinct, and the
   * number in each id reads back as the prize's 1-based position.
   */
  lemma NumberPrizesSpec(names: seq<string>)
    ensures |NumberPrizes(names)| == |names|
    ensures UniqueIds(NumberPrizes(names))
    ensures forall i :: 0 <= i < |names| ==>
              var p := NumberPrizes(names)[i];
              && Js.StartsWith(p.id, "num-") && Js.ParseDecimal(p.id[4..]) == i + 1
              && Js.StartsWith(p.name, "No. ") && Js.ParseDecimal(p.name[4..]) == i + 1
              && p.imageUrl.None? && p.winner.None?
  {
    var ps := NumberPrizes(names);
    forall i, j | 0 <= i < j < |ps| ensures ps[i].id != ps[j].id {
      Js.DecimalInjective(i + 1, j + 1);
      assert ps[i].id[4..] == Js.Decimal(i + 1);
      assert ps[j].id[4..] == Js.Decimal(j + 1);
    }
    forall i | 0 <= i < |names|
      ensures Js.StartsWith(ps[i].id, "num-") && Js.ParseDecimal(ps[i].id[4..]) == i + 1
      ensures Js.StartsWith(ps[i].name, "No. ") && Js.ParseDecimal(ps[i].name[4..]) == i + 1
    {
      Js.ParseDecimalOfDecimal(i + 1);
      assert ps[i].id[..4] == "num-" && ps[i].id[4..] == Js.Decimal(i + 1);
      assert ps[i].name[..4] == "No. " && ps[i].name[4..] == Js.Decimal(i + 1);
    }
  }

  /**
   * End to end, for a gift exchange: whatever permutation of the participant
   * list the drawing screen shuffles, the numbered prizes come back with
   * their ids, and every participant holds exactly one number.
   */
  lemma ExchangeSessionAssignsEveryone(text: string, shuffled: seq<string>)
    requires multiset(shuffled) == multiset(Setup.ParticipantList(text))
    ensures var names := Setup.ParticipantList(text);
            var result := Drawing.BatchResult(NumberPrizes(names), shuffled);
            && Ids(result) == Ids(NumberPrizes(names))
            && multiset(WinnerNames(result)) == multiset(names)
  {
    var names := Setup.ParticipantList(text);
    NumberPrizesSpec(names);
    Drawing.ExchangeAssignsEveryoneOnce(NumberPrizes(names), names, shuffled);
  }

  // ---------------------------------------------------------------------
  // Header subtitle
  // ---------------------------------------------------------------------

  const LuckyDrawTitle := "幸運抽獎"
  const StudyPlanTitle := "智慧考前複習計畫"
  const NanoPromptsTitle := "Nano Banana 提示詞"

  /** `getSubTitle()` for the screen `view`; `None` is `null`. */
  function SubTitle(view: AppState): Option<string> {
    if view == DASHBOARD then None
    else if view == STUDY_PLAN then Some(StudyPlanTitle)
    else if view == NANO_PROMPTS then Some(NanoPromptsTitle)
    else Some(LuckyDrawTitle)
  }

  /**
   * Only the dashboard has no subtitle; the three lucky-draw screens share
   * one title, and each tool's title differs from the others.
   */
  lemma SubTitleRules(view: AppState)
    ensures SubTitle(view).None? <==> view == DASHBOARD
    ensures SubTitle(view) == Some(LuckyDrawTitle) <==> view in {SETUP, DRAWING, FINISHED}
    ensures SubTitle(view) == Some(StudyPlanTitle) <==> view == STUDY_PLAN
    ensures SubTitle(view) == Some(NanoPromptsTitle) <==> view == NANO_PROMPTS
  {
    assert LuckyDrawTitle[0] != StudyPlanTitle[0] && LuckyDrawTitle[0] != NanoPromptsTitle[0];
    assert StudyPlanTitle[0] != NanoPromptsTitle[0];
  }

  // ---------------------------------------------------------------------
  // The shell's state
  // ---------------------------------------------------------------------

  /** The dashboard tiles that lead somewhere. */
  function ToolScreen(toolName: string): Option<AppState> {
    if toolName == "LUCKY_DRAW" then Some(SETUP)
    else if toolName == "STUDY_PLAN" then Some(STUDY_PLAN)
    else if toolName == "NANO_PROMPTS" then Some(NANO_PROMPTS)
    else None
  }

  class App {
    var view: AppState
    var appMode: AppMode
    /** The raw participant text, one name per line. */
    var participants: string
    var prizes: seq<Prize>
    var winners: seq<Prize>
    /** The prizes the current drawing session uses. */
    var activeSessionPrizes: seq<Prize>

    /** The configured prizes and the session prizes each have distinct ids. */
    ghost predicate Valid()
      reads this
    {
      UniqueIds(prizes) && UniqueIds(activeSessionPrizes)
    }

    /** The participant list handed to the drawing screen. */
    function DrawingParticipants(): seq<string>
      reads this
    {
      Setup.ParticipantList(participants)
    }

    constructor ()
      ensures Valid()
      ensures view == DASHBOARD && appMode == STANDARD && participants == ""
      ensures prizes == [] && winners == [] && activeSessionPrizes == []
    {
      view := DASHBOARD;
      appMode := STANDARD;
      participants := "";
      prizes := [];
      winners := [];
      activeSessionPrizes := [];
    }

    /** `setParticipants`, called by the setup screen. */
    method SetParticipants(text: string)
      requires Valid()
      modifies this`participants
      ensures Valid() && participants == text
    {
      participants := text;
    }

    /** `setPrizes`, called by the setup screen, whose prize ids are distinct. */
    method SetPrizes(ps: seq<Prize>)
      requires Valid() && UniqueIds(ps)
      modifies this`prizes
      ensures Valid() && prizes == ps
    {
      prizes := ps;
    }

    /** `setAppMode`, called by the setup screen. */
    method SetAppMode(mode: AppMode)
      requires Valid()
      modifies this`appMode
      ensures Valid() && appMode == mode
    {
      appMode := mode;
    }

    /**
     * `handleSelectTool`: the three known tiles open their screen; any other
     * name leaves the screen as it was. A tile never opens a drawing or the
     * results directly.
     */
    method HandleSelectTool(toolName: string)
      requires Valid()
      modifies this`view
      ensures Valid()
      ensures toolName == "LUCKY_DRAW" ==> view == SETUP
      ensures toolName == "STUDY_PLAN" ==> view == STUDY_PLAN
      ensures toolName == "NANO_PROMPTS" ==> view == NANO_PROMPTS
      ensures ToolScreen(toolName).None? ==> view == old(view)
      ensures view != old(view) ==> view in {SETUP, STUDY_PLAN, NANO_PROMPTS}
    {
      if toolName == "LUCKY_DRAW" {
        view := SETUP;
      } else if toolName == "STUDY_PLAN" {
        view := STUDY_PLAN;
      } else if toolName == "NANO_PROMPTS" {
        view := NANO_PROMPTS;
      }
    }

    /**
     * `handleStartDraw`: in gift-exchange mode the session gets one numbered
     * prize per participant line, otherwise the configured prizes; either
     * way the drawing screen opens. Nothing else changes.
     */
    method HandleStartDraw()
      requires Valid()
      modifies this`activeSessionPrizes, this`view
      ensures Valid()
      ensures view == DRAWING
      ensures appMode == GIFT_EXCHANGE ==>
                && activeSessionPrizes == NumberPrizes(DrawingParticipants())
                && |activeSessionPrizes| == |DrawingParticipants()|
      ensures appMode == STANDARD ==> activeSessionPrizes == prizes
    {
      if appMode == GIFT_EXCHANGE {
        var names := Js.Filter(Js.Split(participants, '\n'), Setup.IsNameLine);
        NumberPrizesSpec(names);
        activeSessionPrizes := NumberPrizes(names);
      } else {
        activeSessionPrizes := prizes;
      }
      view := DRAWING;
    }

    /** `handleFinishDraw`: the results become the winners and the results screen opens. */
    method HandleFinishDraw(results: seq<Prize>)
      requires Valid()
      modifies this`winners, this`view
      ensures Valid() && winners == results && view == FINISHED
    {
      winners := results;
      view := FINISHED;
    }

    /**
     * `handleReset`: winners are cleared and the setup screen opens;
     * participants, prizes and mode are kept for the next round.
     */
    method HandleReset()
      requires Valid()
      modifies this`winners, this`view
      ensures Valid() && winners == [] && view == SETUP
    {
      winners := [];
      view := SETUP;
    }

    /** `handleGoHome`: back to the dashboard, keeping everything else. */
    method HandleGoHome()
      requires Valid()
      modifies this`view
      ensures Valid() && view == DASHBOARD
    {
      view := DASHBOARD;
    }

    /**
     * The `onBack` callback handed to the drawing screen: back to setup,
     * keeping everything else. The drawing screen never invokes it.
     */
    method HandleDrawBack()
      requires Valid()
      modifies this`view
      ensures Valid() && view == SETUP
    {
      view := SETUP;
    }
  }
}
