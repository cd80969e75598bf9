/**
  The static browser client (public/app.js): the signed-in user, the
  dashboard's score and summary fallbacks, the three recommendation lists
  that `fillList` rebuilds, and the history list `loadHistory` rebuilds.

  An element's `innerHTML` is modelled as the sequence of nodes it holds;
  clearing it is assigning `[]`, and `innerHTML += ...` appends one node. The
  `fetch` calls and their parsed bodies are parameters.
*/
module StaticClient {
  import opened Wrappers
  import opened Js

  // ---------------------------------------------------------------------------
  // Page contents
  // ---------------------------------------------------------------------------

  /** A history entry as the server sends it; only the score takes part in a decision. */
  datatype HistoryItem = HistoryItem(date: Value, fileName: Value, summary: Value, score: real)

  /** What an element's `innerHTML` can hold. */
  datatype Node =
    | Li(text: Value)              // `<li>${txt}</li>`
    | NoSuggestions                // the grey 'No specific suggestions.' item
    | HistoryLoading               // 'Loading history...'
    | NoReports                    // 'No reports found.'
    | LoadFailed                   // 'Failed to load.'
    | Card(item: HistoryItem, scoreClass: string)  // one history card, its score styled by `scoreClass`

  /** A DOM element whose children the client rewrites. */
  class Element {
    var children: seq<Node>

    constructor ()
      ensures children == []
    {
      children := [];
    }
  }

  // ---------------------------------------------------------------------------
  // Dashboard fallbacks
  // ---------------------------------------------------------------------------

  const NoScore: string := "--"
  const NoSummary: string := "No summary available."

  /** `data.score || "--"`: a falsy score (0, none at all, false, "") shows "--". */
  function ScoreDisplay(score: Value): (v: Value)
    ensures !Truthy(score) ==> v == Str(NoScore)
    ensures Truthy(score) ==> v == score
  {
    Or(score, Str(NoScore))
  }

  /** `data.summary || "No summary available."`: a missing, empty or other falsy summary shows the default text. */
  function SummaryDisplay(summary: Value): (v: Value)
    ensures !Truthy(summary) ==> v == Str(NoSummary)
    ensures Truthy(summary) ==> v == summary
  {
    Or(summary, Str(NoSummary))
  }

  // ---------------------------------------------------------------------------
  // fillList
  // ---------------------------------------------------------------------------

  /** One `<li>` per item, in order. */
  function Lis(items: seq<Value>): (r: seq<Node>)
    ensures |r| == |items|
    ensures forall i :: 0 <= i < |items| ==> r[i] == Li(items[i])
  {
    if items == [] then [] else [Li(items[0])] + Lis(items[1..])
  }

  /**
    What `fillList` leaves in its element for the list `arr` (None when it
    is undefined or null): one `<li>` per item, or the placeholder alone.
  */
  function ListEntries(arr: Option<seq<Value>>): (r: seq<Node>)
    ensures r == [NoSuggestions] <==> arr.None? || arr.value == []
    ensures arr.Some? && arr.value != [] ==>
              |r| == |arr.value| && forall i :: 0 <= i < |r| ==> r[i] == Li(arr.value[i])
  {
    if arr.Some? && |arr.value| > 0 then Lis(arr.value) else [NoSuggestions]
  }

  /** The texts of the `<li>` items of a list. */
  function ItemTexts(nodes: seq<Node>): seq<Value>
  {
    if nodes == [] then []
    else if nodes[0].Li? then [nodes[0].text] + ItemTexts(nodes[1..])
    else ItemTexts(nodes[1..])
  }

  /** A non-empty list is shown exactly: its `<li>` texts are its items, in order. */
  lemma {:induction false} ListEntriesShowItems(items: seq<Value>)
    requires items != []
    ensures ItemTexts(ListEntries(Some(items))) == items
  {
    LisTexts(items);
  }

  lemma {:induction false} LisTexts(items: seq<Value>)
    ensures ItemTexts(Lis(items)) == items
    decreases |items|
  {
    if items != [] {
      assert Lis(items)[1..] == Lis(items[1..]);
      LisTexts(items[1..]);
    }
  }

  /** The fallback list holds no item text at all. */
  lemma EmptyListShowsNoItems(arr: Option<seq<Value>>)
    requires arr.None? || arr.value == []
    ensures ItemTexts(ListEntries(arr)) == []
  {
  }

  /**
    `fillList(id, arr)`: the element is cleared, then gets one `<li>` per item
    of a non-empty `arr`, or the placeholder; what it held before is gone.
  */
  method FillList(el: Element, arr: Option<seq<Value>>)
    modifies el
    ensures el.children == ListEntries(arr)
  {
    el.children := [];
    if arr.Some? && |arr.value| > 0 {
      var items := arr.value;
      var i := 0;
      while i < |items|
        invariant 0 <= i <= |items|
        invariant |el.children| == i
        invariant forall j :: 0 <= j < i ==> el.children[j] == Li(items[j])
      {
        el.children := el.children + [Li(items[i])];
        i := i + 1;
      }
    } else {
      el.children := [NoSuggestions];
    }
  }

  // ---------------------------------------------------------------------------
  // History score colour
  // ---------------------------------------------------------------------------

  const GreenClass: string := "text-green-600"
  const YellowClass: string := "text-yellow-600"
  const RedClass: string := "text-red-600"
  const GrayClass: string := "text-gray-600"

  /** `scoreClass` of a history card: 80 and up green, from 50 yellow, above 0 red, otherwise grey. */
  function ScoreClass(score: real): (c: string)
    ensures c == GreenClass <==> 80.0 <= score
    ensures c == YellowClass <==> 50.0 <= score < 80.0
    ensures c == RedClass <==> 0.0 < score < 50.0
    ensures c == GrayClass <==> score <= 0.0
  {
    if score >= 80.0 then GreenClass
    else if score >= 50.0 then YellowClass
    else if score > 0.0 then RedClass
    else GrayClass
  }

  /** The classes ordered from the worst score to the best. */
  function ClassRank(c: string): nat
  {
    if c == GreenClass then 3
    else if c == YellowClass then 2
    else if c == RedClass then 1
    else 0
  }

  /** A higher score never gets a worse colour. */
  lemma ScoreClassMonotone(a: real, b: real)
    requires a <= b
    ensures ClassRank(ScoreClass(a)) <= ClassRank(ScoreClass(b))
  {
  }

  /** The history cards, one per item in order, each styled by its score. */
  function Cards(items: seq<HistoryItem>): (r: seq<Node>)
    ensures |r| == |items|
    ensures forall i :: 0 <= i < |items| ==> r[i] == Card(items[i], ScoreClass(items[i].score))
  {
    if items == [] then [] else [Card(items[0], ScoreClass(items[0].score))] + Cards(items[1..])
  }

  // ---------------------------------------------------------------------------
  // The page
  // ---------------------------------------------------------------------------

  /** The signed-in Firebase user; its `uid` names the history to load. */
  datatype User = User(uid: string)

  /** The path of the history request, `/history/${currentUser.uid}`. */
  function HistoryPath(u: User): (path: string)
    ensures |path| == 9 + |u.uid|
    ensures path[..9] == "/history/" && path[9..] == u.uid
  {
    "/history/" + u.uid
  }

  /** Each user's history is requested under that user's own path. */
  lemma HistoryPathInjective(u: User, v: User)
    ensures HistoryPath(u) == HistoryPath(v) <==> u == v
  {
    if HistoryPath(u) == HistoryPath(v) {
      assert u.uid == HistoryPath(u)[9..] == HistoryPath(v)[9..] == v.uid;
    }
  }

  /** The recommendations of an analysis; a list is None when it is undefined or null. */
  datatype Recommendations = Recommendations(diet: Option<seq<Value>>, exercise: Option<seq<Value>>, lifestyle: Option<seq<Value>>)

  /** The parsed `/upload` response; `recommendations` is None when it is falsy. */
  datatype Payload = Payload(score: Value, summary: Value, recommendations: Option<Recommendations>)

  /** How `fetch('/history/...')` and `res.json()` ended: the list of entries, or something thrown. */
  datatype HistoryFetch = Fetched(items: seq<HistoryItem>) | FetchFailed

  /** The history list's contents after a request that ended with `fetched`. */
  function HistoryEntries(fetched: HistoryFetch): (r: seq<Node>)
    ensures fetched.FetchFailed? ==> r == [LoadFailed]
    ensures fetched.Fetched? && fetched.items == [] ==> r == [NoReports]
    ensures fetched.Fetched? && fetched.items != [] ==> r == Cards(fetched.items)
  {
    match fetched
    case FetchFailed => [LoadFailed]
    case Fetched(items) => if |items| == 0 then [NoReports] else Cards(items)
  }

  /**
    An empty history shows only the "No reports found." message and no card.
    A named corollary of HistoryEntries' contract; it needs no proof of its own.
  */
  lemma EmptyHistoryShowsOnlyMessage(fetched: HistoryFetch)
    requires fetched.Fetched? && fetched.items == []
    ensures HistoryEntries(fetched) == [NoReports]
    ensures forall i :: 0 <= i < |HistoryEntries(fetched)| ==> !HistoryEntries(fetched)[i].Card?
  {
  }

  /**
    A non-empty history shows one card per entry and nothing else. A named
    corollary of the contracts of HistoryEntries and Cards; it needs no proof
    of its own.
  */
  lemma HistoryShowsEveryEntry(items: seq<HistoryItem>)
    requires items != []
    ensures |HistoryEntries(Fetched(items))| == |items|
    ensures forall i :: 0 <= i < |items| ==> HistoryEntries(Fetched(items))[i].Card? && HistoryEntries(Fetched(items))[i].item == items[i]
  {
  }

  /** The module state of public/app.js and the elements it rewrites. */
  class Page {
    var currentUser: Option<User>
    /** The text of `#score-val` and of `#summary-text`. */
    var scoreVal: Value
    var summaryText: Value
    const recDiet: Element
    const recExercise: Element
    const recLifestyle: Element
    const historyList: Element

    /** The four elements are distinct nodes of the document. */
    predicate Valid()
      reads this
    {
      recDiet != recExercise && recDiet != recLifestyle && recExercise != recLifestyle &&
      historyList != recDiet && historyList != recExercise && historyList != recLifestyle
    }

    /** The page as loaded: nobody is signed in and the lists are empty. */
    constructor ()
      ensures Valid()
      ensures fresh(recDiet) && fresh(recExercise) && fresh(recLifestyle) && fresh(historyList)
      ensures currentUser == None
      ensures recDiet.children == [] && recExercise.children == [] && recLifestyle.children == []
      ensures historyList.children == []
    {
      currentUser := None;
      scoreVal := Undefined;
      summaryText := Undefined;
      recDiet := new Element();
      recExercise := new Element();
      recLifestyle := new Element();
      historyList := new Element();
    }

    /** The `onAuthStateChanged` callback: `currentUser` becomes the new user, or null on sign-out. */
    method OnAuthStateChanged(user: Option<User>)
      modifies this
      ensures currentUser == user
      ensures scoreVal == old(scoreVal) && summaryText == old(summaryText)
    {
      currentUser := user;
    }

    /**
      `renderDashboard(data)`: the score and summary with their fallbacks,
      and, only when `data.recommendations` is present, the three lists.
    */
    method RenderDashboard(data: Payload)
      requires Valid()
      modifies this, recDiet, recExercise, recLifestyle
      ensures scoreVal == ScoreDisplay(data.score)
      ensures summaryText == SummaryDisplay(data.summary)
      ensures currentUser == old(currentUser)
      ensures data.recommendations.None? ==>
                recDiet.children == old(recDiet.children) &&
                recExercise.children == old(recExercise.children) &&
                recLifestyle.children == old(recLifestyle.children)
      ensures data.recommendations.Some? ==>
                recDiet.children == ListEntries(data.recommendations.value.diet) &&
                recExercise.children == ListEntries(data.recommendations.value.exercise) &&
                recLifestyle.children == ListEntries(data.recommendations.value.lifestyle)
      ensures historyList.children == old(historyList.children)
    {
      scoreVal := ScoreDisplay(data.score);
      summaryText := SummaryDisplay(data.summary);
      if data.recommendations.Some? {
        var recs := data.recommendations.value;
        FillList(recDiet, recs.diet);
        FillList(recExercise, recs.exercise);
        FillList(recLifestyle, recs.lifestyle);
      }
    }

    /**
      `loadHistory()`: with nobody signed in nothing happens; otherwise the
      list shows a loading message until the request for the user's history
      path ends. `fetch` stands for `fetch` and `res.json()` together: how the
      request for a path ends.
    */
    method LoadHistory(fetch: string -> HistoryFetch)
      requires Valid()
      modifies historyList
      ensures currentUser.None? ==> historyList.children == old(historyList.children)
      ensures currentUser.Some? ==> historyList.children == HistoryEntries(fetch(HistoryPath(currentUser.value)))
    {
      if currentUser.None? {
        return;
      }
      historyList.children := [HistoryLoading];
      var fetched := fetch(HistoryPath(currentUser.value));
      match fetched {
        case FetchFailed =>
          historyList.children := [LoadFailed];
        case Fetched(items) =>
          historyList.children := [];
          if |items| == 0 {
            historyList.children := [NoReports];
            return;
          }
          var i := 0;
          while i < |items|
            invariant 0 <= i <= |items|
            invariant |historyList.children| == i
            invariant forall j :: 0 <= j < i ==> historyList.children[j] == Card(items[j], ScoreClass(items[j].score))
          {
            var scoreClass := ScoreClass(items[i].score);
            historyList.children := historyList.children + [Card(items[i], scoreClass)];
            i := i + 1;
          }
      }
    }
  }
}
