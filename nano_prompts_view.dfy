/**
 * The prompt-style gallery: a catalogue of style prompts the user may edit
 * and reset, category chips and the filter they drive, the source photo,
 * and the bookkeeping of which styles are being generated and which
 * generated images are shown.
 */
module Prompts {
  import opened Wrappers
  import Js

  /** One catalogue entry. */
  datatype PromptItem = PromptItem(id: string, category: string, title: string, prompt: string, tag: string, imageUrl: string)

  /** The category chip that shows every item. */
  const AllCategory := "全部"

  /** No two catalogue entries share an id. */
  ghost predicate UniqueItemIds(data: seq<PromptItem>) {
    forall i, j :: 0 <= i < j < |data| ==> data[i].id != data[j].id
  }

  function ItemIds(data: seq<PromptItem>): set<string> {
    set item | item in data :: item.id
  }

  // ---------------------------------------------------------------------
  // Prompt overrides
  // ---------------------------------------------------------------------

  /** `data.reduce((acc, item) => ({ ...acc, [item.id]: item.prompt }), {})`. */
  function DefaultPrompts(data: seq<PromptItem>): (m: map<string, string>)
    ensures m.Keys == ItemIds(data)
  {
    if data == [] then map[]
    else
      var init, last := data[..|data| - 1], data[|data| - 1];
      assert data == init + [last];
      assert ItemIds(data) == ItemIds(init) + {last.id};
      DefaultPrompts(init)[last.id := last.prompt]
  }

  /** Ids being distinct, the initial overrides map each id to that entry's own prompt. */
  lemma {:induction false} DefaultPromptsSpec(data: seq<PromptItem>)
    ensures UniqueItemIds(data) ==>
              forall i :: 0 <= i < |data| ==> DefaultPrompts(data)[data[i].id] == data[i].prompt
  {
    if data != [] {
      var init := data[..|data| - 1];
      var last := data[|data| - 1];
      DefaultPromptsSpec(init);
      assert data == init + [last];
      if UniqueItemIds(data) {
        assert UniqueItemIds(init);
        forall i | 0 <= i < |data|
          ensures DefaultPrompts(data)[data[i].id] == data[i].prompt
        {
          if i < |init| {
            assert data[i] == init[i] && data[i].id != last.id;
          }
        }
      }
    }
  }

  /** `p => p.id === id`. */
  function WithId(id: string): PromptItem -> bool {
    (p: PromptItem) => p.id == id
  }

  /** `PROMPT_DATA.find(p => p.id === id)`. */
  function Original(data: seq<PromptItem>, id: string): Option<PromptItem> {
    Js.Find(data, WithId(id))
  }

  /** The entry found for an id is the catalogue entry with that id, so it carries the initial prompt. */
  lemma OriginalSpec(data: seq<PromptItem>, id: string)
    requires UniqueItemIds(data)
    ensures Original(data, id).Some? <==> id in ItemIds(data)
    ensures Original(data, id).Some? ==>
              && Original(data, id).value in data && Original(data, id).value.id == id
              && Original(data, id).value.prompt == DefaultPrompts(data)[id]
  {
    DefaultPromptsSpec(data);
    if id in ItemIds(data) {
      var item :| item in data && item.id == id;
      var k :| 0 <= k < |data| && data[k] == item;
      assert WithId(id)(data[k]);
    }
    if Original(data, id).Some? {
      var i :| 0 <= i < |data| && data[i] == Original(data, id).value && WithId(id)(data[i]);
      assert data[i] in data;
    }
  }

  // ---------------------------------------------------------------------
  // Categories and the filter
  // ---------------------------------------------------------------------

  /** `Array.from(new Set(xs))`: each value once, in the order it first appears. */
  function Distinct(xs: seq<string>): (d: seq<string>)
    ensures forall i, j :: 0 <= i < j < |d| ==> d[i] != d[j]
    ensures forall x :: x in d <==> x in xs
  {
    if xs == [] then []
    else
      var d := Distinct(xs[..|xs| - 1]);
      var last := xs[|xs| - 1];
      assert xs == xs[..|xs| - 1] + [last];
      if last in d then d else d + [last]
  }

  /** The values of `Distinct` keep the order of their first appearance in the input. */
  lemma {:induction false} DistinctFirstAppearance(xs: seq<string>)
    ensures forall i, j :: 0 <= i < j < |Distinct(xs)| ==>
              Js.IndexOf(xs, Distinct(xs)[i]) < Js.IndexOf(xs, Distinct(xs)[j])
  {
    if xs != [] {
      var init := xs[..|xs| - 1];
      var last := xs[|xs| - 1];
      assert xs == init + [last];
      DistinctFirstAppearance(init);
      var d := Distinct(init);
      forall x | x in init ensures Js.IndexOf(xs, x) == Js.IndexOf(init, x) {
        IndexOfExtend(init, [last], x);
      }
      if last !in d {
        IndexOfAbsentThenLast(init, last);
        forall i | 0 <= i < |d| ensures Js.IndexOf(xs, d[i]) < Js.IndexOf(xs, last) {
          assert d[i] in init;
        }
      }
    }
  }

  lemma IndexOfExtend(a: seq<string>, b: seq<string>, x: string)
    requires x in a
    ensures Js.IndexOf(a + b, x) == Js.IndexOf(a, x)
  {
    var i := Js.IndexOf(a, x);
    assert (a + b)[i] == x;
    assert forall k :: 0 <= k < i ==> (a + b)[k] == a[k];
    assert forall k :: 0 <= k < i ==> a[k] != x;
  }

  lemma IndexOfAbsentThenLast(a: seq<string>, x: string)
    requires x !in a
    ensures Js.IndexOf(a + [x], x) == |a|
  {
    Js.IndexOfPrefix(a, x, []);
    assert a + [x] + [] == a + [x];
  }

  /** The category of every catalogue entry, in catalogue order. */
  function CategoryColumn(data: seq<PromptItem>): seq<string> {
    seq(|data|, i requires 0 <= i < |data| => data[i].category)
  }

  /** `['全部', ...Array.from(new Set(PROMPT_DATA.map(p => p.category)))]`. */
  function Categories(data: seq<PromptItem>): seq<string> {
    [AllCategory] + Distinct(CategoryColumn(data))
  }

  /**
   * The chips start with the all-items chip, then list every category of
   * the catalogue exactly once, in first-appearance order, and nothing else.
   */
  lemma CategoriesSpec(data: seq<PromptItem>)
    ensures |Categories(data)| >= 1 && Categories(data)[0] == AllCategory
    ensures forall c :: c in Categories(data)[1..] <==> exists item :: item in data && item.category == c
    ensures forall i, j :: 1 <= i < j < |Categories(data)| ==> Categories(data)[i] != Categories(data)[j]
    ensures forall i, j :: 1 <= i < j < |Categories(data)| ==>
              Js.IndexOf(CategoryColumn(data), Categories(data)[i])
              < Js.IndexOf(CategoryColumn(data), Categories(data)[j])
  {
    var col := CategoryColumn(data);
    var d := Distinct(col);
    assert Categories(data)[1..] == d;
    DistinctFirstAppearance(col);
    forall c ensures c in d <==> exists item :: item in data && item.category == c {
      if c in col {
        var k :| 0 <= k < |col| && col[k] == c;
        assert data[k] in data;
      }
      if exists item :: item in data && item.category == c {
        var item :| item in data && item.category == c;
        var k :| 0 <= k < |data| && data[k] == item;
        assert col[k] == c;
      }
    }
    forall i, j | 1 <= i < j < |Categories(data)|
      ensures Categories(data)[i] != Categories(data)[j]
      ensures Js.IndexOf(col, Categories(data)[i]) < Js.IndexOf(col, Categories(data)[j])
    {
      assert Categories(data)[i] == d[i - 1] && Categories(data)[j] == d[j - 1];
    }
  }

  /** `p => p.category === category`. */
  function InCategory(category: string): PromptItem -> bool {
    (p: PromptItem) => p.category == category
  }

  /** `filteredData`: the whole catalogue for the all-items chip, else the entries of that category. */
  function FilteredData(data: seq<PromptItem>, active: string): (shown: seq<PromptItem>)
    ensures |shown| <= |data|
    ensures forall k :: 0 <= k < |shown| ==> shown[k] in data
  {
    if active == AllCategory then data else Js.Filter(data, InCategory(active))
  }

  /**
   * Any other chip shows exactly the entries of its category, each as often
   * as in the catalogue, in catalogue order (the filter commutes with
   * splitting the catalogue); every chip shown has at least one entry.
   */
  lemma FilteredDataSpec(data: seq<PromptItem>, active: string, front: seq<PromptItem>, back: seq<PromptItem>)
    ensures active == AllCategory ==> FilteredData(data, active) == data
    ensures active != AllCategory ==>
              forall p :: multiset(FilteredData(data, active))[p]
                          == if p.category == active then multiset(data)[p] else 0
    ensures active != AllCategory ==>
              FilteredData(front + back, active) == FilteredData(front, active) + FilteredData(back, active)
    ensures data != [] && active in Categories(data) ==> |FilteredData(data, active)| > 0
  {
    Js.FilterMultiset(data, InCategory(active));
    Js.FilterAppend(front, back, InCategory(active));
    if active in Categories(data) && active != AllCategory {
      CategoriesSpec(data);
      assert active in Categories(data)[1..];
      var item :| item in data && item.category == active;
      assert multiset(FilteredData(data, active))[item] > 0;
      assert item in FilteredData(data, active);
    }
  }

  // ---------------------------------------------------------------------
  // The gallery's state
  // ---------------------------------------------------------------------

  /** What `transformImageStyle` is called with: the photo, its MIME type and the prompt. */
  datatype TransformRequest = TransformRequest(image: string, mime: string, prompt: string)

  class NanoPromptsView {
    /** The catalogue (`PROMPT_DATA`). */
    const data: seq<PromptItem>
    var userImage: Option<string>
    var userImageMime: string
    /** Generated image per item id. */
    var generationResults: map<string, string>
    /** Ids of the items whose generation is running. */
    var loadingIds: set<string>
    var activeCategory: string
    /** The editable prompt per item id. */
    var customPrompts: map<string, string>

    /**
     * Catalogue ids are distinct; every entry has an editable prompt; only
     * catalogue entries are loading or have generated images.
     */
    ghost predicate Valid()
      reads this
    {
      && UniqueItemIds(data)
      && ItemIds(data) <= customPrompts.Keys
      && loadingIds <= ItemIds(data)
      && generationResults.Keys <= ItemIds(data)
    }

    /** The items on screen for the selected chip. */
    function Visible(): seq<PromptItem>
      reads this
    {
      FilteredData(data, activeCategory)
    }

    constructor (data: seq<PromptItem>, initialCategory: string)
      requires UniqueItemIds(data)
      ensures Valid()
      ensures this.data == data && customPrompts == DefaultPrompts(data)
      ensures forall item :: item in data ==> customPrompts[item.id] == item.prompt
      ensures userImage == None && userImageMime == "" && generationResults == map[]
      ensures loadingIds == {} && activeCategory == initialCategory
    {
      this.data := data;
      DefaultPromptsSpec(data);
      userImage := None;
      userImageMime := "";
      generationResults := map[];
      loadingIds := {};
      activeCategory := initialCategory;
      customPrompts := DefaultPrompts(data);
      forall item | item in data ensures DefaultPrompts(data)[item.id] == item.prompt {
        var k :| 0 <= k < |data| && data[k] == item;
      }
    }

    /** A chip's `onClick`. */
    method SelectCategory(category: string)
      requires Valid()
      modifies this`activeCategory
      ensures Valid() && activeCategory == category
    {
      activeCategory := category;
    }

    /** `handlePromptChange`: entry `id` becomes `newText`; every other entry is kept. */
    method HandlePromptChange(id: string, newText: string)
      requires Valid()
      modifies this`customPrompts
      ensures Valid()
      ensures customPrompts.Keys == old(customPrompts.Keys) + {id}
      ensures customPrompts[id] == newText
      ensures forall k :: k in old(customPrompts) && k != id ==> customPrompts[k] == old(customPrompts)[k]
    {
      customPrompts := customPrompts[id := newText];
    }

    /**
     * `resetPrompt`: a catalogue id gets its initial prompt back and every
     * other entry is kept; an unknown id changes nothing.
     */
    method ResetPrompt(id: string)
      requires Valid()
      modifies this`customPrompts
      ensures Valid()
      ensures id in ItemIds(data) ==>
                && customPrompts == old(customPrompts)[id := DefaultPrompts(data)[id]]
                && customPrompts.Keys == old(customPrompts.Keys)
      ensures id !in ItemIds(data) ==> customPrompts == old(customPrompts)
    {
      OriginalSpec(data, id);
      var original := Original(data, id);
      if original.Some? {
        customPrompts := customPrompts[id := original.value.prompt];
      }
    }

    /**
     * `processFile` with the reader's outcome: a file whose type does not
     * start with `image/` changes nothing; otherwise its type is kept as the
     * MIME type and, when the reader returns a non-empty data URL, that
     * becomes the photo and earlier generated images are dropped.
     */
    method ProcessFile(fileType: string, readResult: Option<string>)
      requires Valid()
      modifies this`userImageMime, this`userImage, this`generationResults
      ensures Valid()
      ensures !Js.StartsWith(fileType, "image/") ==>
                && userImageMime == old(userImageMime) && userImage == old(userImage)
                && generationResults == old(generationResults)
      ensures Js.StartsWith(fileType, "image/") ==> userImageMime == fileType
      ensures Js.StartsWith(fileType, "image/") && readResult.Some? && readResult.value != "" ==>
                userImage == readResult && generationResults == map[]
      ensures !(readResult.Some? && readResult.value != "") ==>
                userImage == old(userImage) && generationResults == old(generationResults)
    {
      if !Js.StartsWith(fileType, "image/") {
        return;
      }
      userImageMime := fileType;
      if readResult.Some? && readResult.value != "" {
        userImage := readResult;
        generationResults := map[];
      }
    }

    /** `handleClearImage`: no photo, no MIME type, no generated images. */
    method HandleClearImage()
      requires Valid()
      modifies this`userImage, this`userImageMime, this`generationResults
      ensures Valid()
      ensures userImage == None && userImageMime == "" && generationResults == map[]
    {
      userImage := None;
      userImageMime := "";
      generationResults := map[];
    }

    /**
     * The part of `handleTransform` before the call to the generator, for a
     * card of the gallery: without a photo nothing happens; otherwise the
     * item is marked loading and the request carries the photo, its type
     * and the item's current (possibly edited) prompt.
     */
    method BeginTransform(item: PromptItem) returns (request: Option<TransformRequest>)
      requires Valid() && item in data
      modifies this`loadingIds
      ensures Valid()
      ensures request.None? <==> old(userImage).None?
      ensures request.None? ==> loadingIds == old(loadingIds)
      ensures request.Some? ==>
                && request.value == TransformRequest(userImage.value, userImageMime, customPrompts[item.id])
                && loadingIds == old(loadingIds) + {item.id}
    {
      if userImage.None? {
        return None;
      }
      var currentPrompt := customPrompts[item.id];
      loadingIds := loadingIds + {item.id};
      request := Some(TransformRequest(userImage.value, userImageMime, currentPrompt));
    }

    /**
     * The part after the generator answered (`result`; `None` stands for
     * `null` and for a thrown error): a non-empty result is stored for the
     * item, anything else stores nothing; in every case the item stops
     * loading, and the other items' loading state and results are kept.
     */
    method CompleteTransform(item: PromptItem, result: Option<string>)
      requires Valid() && item in data
      modifies this`loadingIds, this`generationResults
      ensures Valid()
      ensures loadingIds == old(loadingIds) - {item.id}
      ensures result.Some? && result.value != "" ==>
                generationResults == old(generationResults)[item.id := result.value]
      ensures !(result.Some? && result.value != "") ==> generationResults == old(generationResults)
    {
      if result.Some? && result.value != "" {
        generationResults := generationResults[item.id := result.value];
      }
      loadingIds := loadingIds - {item.id};
    }
  }
}
