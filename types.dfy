/** The shared records and enumerations of the lucky-draw application. */
module Types {
  import opened Wrappers

  /** A prize; `imageUrl` and `winner` are optional fields (absent = `None`). */
  datatype Prize = Prize(id: string, name: string, imageUrl: Option<string>, winner: Option<string>)

  /** The screens of the application. STUDY_PLAN and NANO_PROMPTS are screens the shell routes to. */
  datatype AppState = DASHBOARD | SETUP | DRAWING | FINISHED | STUDY_PLAN | NANO_PROMPTS

  /** Per-prize wheel draws, or one gift-exchange assignment of numbers. */
  datatype AppMode = STANDARD | GIFT_EXCHANGE

  /** `!p.imageUrl` is false: the prize has a non-empty image URL. */
  predicate HasImage(p: Prize) {
    p.imageUrl.Some? && p.imageUrl.value != ""
  }

  /** No two prizes share an id. */
  ghost predicate UniqueIds(ps: seq<Prize>) {
    forall i, j :: 0 <= i < j < |ps| ==> ps[i].id != ps[j].id
  }

  /** The ids of `ps`, in order. */
  function Ids(ps: seq<Prize>): seq<string> {
    seq(|ps|, k requires 0 <= k < |ps| => ps[k].id)
  }

  /** The recorded winner names of `ws`, in order (an entry without a winner reads as ""). */
  function WinnerNames(ws: seq<Prize>): seq<string> {
    seq(|ws|, k requires 0 <= k < |ws| => ws[k].winner.GetOr(""))
  }

  /** Recording one more winner appends one name. */
  lemma WinnerNamesAppend(ws: seq<Prize>, w: Prize)
    ensures WinnerNames(ws + [w]) == WinnerNames(ws) + [w.winner.GetOr("")]
  {
  }
}
