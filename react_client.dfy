/**
  The React client (frontend/src/App.jsx): the colour bands of the wellness
  score, the recommendation card's list, and the view changes of
  `handleAnalyze`. Scores are JavaScript numbers, modelled as reals.
*/
module ReactClient {
  import opened Wrappers
  import opened Js

  // ---------------------------------------------------------------------------
  // Score bands
  // ---------------------------------------------------------------------------

  /** The four bands, from the worst score to the best. */
  datatype Band = Red | Orange | Lime | Green

  function Rank(b: Band): nat
  {
    match b
    case Red => 0
    case Orange => 1
    case Lime => 2
    case Green => 3
  }

  /** The band a score falls in; the cut points are 30, 60 and 80, each belonging to the band below. */
  function BandOf(score: real): (b: Band)
    ensures b == Red <==> score <= 30.0
    ensures b == Orange <==> 30.0 < score <= 60.0
    ensures b == Lime <==> 60.0 < score <= 80.0
    ensures b == Green <==> 80.0 < score
  {
    if score <= 30.0 then Red
    else if score <= 60.0 then Orange
    else if score <= 80.0 then Lime
    else Green
  }

  /** A higher score never falls in a lower band. */
  lemma BandMonotone(a: real, b: real)
    requires a <= b
    ensures Rank(BandOf(a)) <= Rank(BandOf(b))
  {
  }

  /** The classes `getScoreColor` gives a band: a text colour, then the matching stroke colour. */
  function ColorClasses(b: Band): string
  {
    match b
    case Red => "text-red-500 stroke-red-500"
    case Orange => "text-orange-500 stroke-orange-500"
    case Lime => "text-lime-500 stroke-lime-500"
    case Green => "text-green-600 stroke-green-600"
  }

  /** The classes `getScoreBg` gives a band. */
  function BackgroundClasses(b: Band): string
  {
    match b
    case Red => "bg-red-50 border-red-100"
    case Orange => "bg-orange-50 border-orange-100"
    case Lime => "bg-lime-50 border-lime-100"
    case Green => "bg-green-50 border-green-100"
  }

  /** `getScoreColor`. */
  function GetScoreColor(score: real): (r: string)
    ensures r == ColorClasses(BandOf(score))
  {
    if score <= 30.0 then "text-red-500 stroke-red-500"
    else if score <= 60.0 then "text-orange-500 stroke-orange-500"
    else if score <= 80.0 then "text-lime-500 stroke-lime-500"
    else "text-green-600 stroke-green-600"
  }

  /** `getScoreBg`. */
  function GetScoreBg(score: real): (r: string)
    ensures r == BackgroundClasses(BandOf(score))
  {
    if score <= 30.0 then "bg-red-50 border-red-100"
    else if score <= 60.0 then "bg-orange-50 border-orange-100"
    else if score <= 80.0 then "bg-lime-50 border-lime-100"
    else "bg-green-50 border-green-100"
  }

  /** The Tailwind colour of a band, shared by its text, stroke, background and border classes. */
  function ColorName(b: Band): string
  {
    match b
    case Red => "red"
    case Orange => "orange"
    case Lime => "lime"
    case Green => "green"
  }

  /** The shade of a band's text and stroke classes. */
  function Shade(b: Band): string
  {
    if b == Green then "600" else "500"
  }

  /** The text-colour class of a band, the first class of its `getScoreColor` value. */
  function TextClass(b: Band): string
  {
    "text-" + ColorName(b) + "-" + Shade(b)
  }

  /** The stroke-colour class of a band, the second class of its `getScoreColor` value. */
  function StrokeClass(b: Band): string
  {
    "stroke-" + ColorName(b) + "-" + Shade(b)
  }

  /** The background and border classes of a band, the value of `getScoreBg`. */
  function BackgroundOf(b: Band): string
  {
    "bg-" + ColorName(b) + "-50 border-" + ColorName(b) + "-100"
  }

  /**
    Every literal of `getScoreColor` is the band's text class, a space and its
    stroke class, and every literal of `getScoreBg` is its background and
    border classes: all four name the same colour.
  */
  lemma ClassesOfBand(b: Band)
    ensures ColorClasses(b) == TextClass(b) + " " + StrokeClass(b)
    ensures BackgroundClasses(b) == BackgroundOf(b)
  {
    match b
    case Red => RedColor(); RedBackground();
    case Orange => OrangeColor(); OrangeBackground();
    case Lime => LimeColor(); LimeBackground();
    case Green => GreenColor(); GreenBackground();
  }

  lemma RedColor()
    ensures ColorClasses(Red) == TextClass(Red) + " " + StrokeClass(Red)
  {
  }

  lemma RedBackground()
    ensures BackgroundClasses(Red) == BackgroundOf(Red)
  {
  }

  lemma OrangeColor()
    ensures ColorClasses(Orange) == TextClass(Orange) + " " + StrokeClass(Orange)
  {
  }

  lemma OrangeBackground()
    ensures BackgroundClasses(Orange) == BackgroundOf(Orange)
  {
  }

  lemma LimeColor()
    ensures ColorClasses(Lime) == TextClass(Lime) + " " + StrokeClass(Lime)
  {
  }

  lemma LimeBackground()
    ensures BackgroundClasses(Lime) == BackgroundOf(Lime)
  {
  }

  lemma GreenColor()
    ensures ColorClasses(Green) == TextClass(Green) + " " + StrokeClass(Green)
  {
  }

  lemma GreenBackground()
    ensures BackgroundClasses(Green) == BackgroundOf(Green)
  {
  }

  /** Slicing inside the left operand of a concatenation ignores the right one. */
  lemma SliceOfLeft(x: string, y: string, i: nat, j: nat)
    requires i <= j <= |x|
    ensures (x + y)[i..j] == x[i..j]
  {
  }

  /** The right operand of a concatenation is the slice that follows the left one. */
  lemma SliceAfter(x: string, y: string)
    ensures (x + y)[|x|..|x| + |y|] == y
  {
  }

  /** The colour name stands right after "text-" in a band's text and stroke classes. */
  lemma NameInColorClasses(b: Band)
    ensures (TextClass(b) + " " + StrokeClass(b))[5..5 + |ColorName(b)|] == ColorName(b)
  {
    var n := ColorName(b);
    SliceAfter("text-", n);
    SliceOfLeft("text-" + n, "-", 5, 5 + |n|);
    SliceOfLeft("text-" + n + "-", Shade(b), 5, 5 + |n|);
    SliceOfLeft(TextClass(b), " ", 5, 5 + |n|);
    SliceOfLeft(TextClass(b) + " ", StrokeClass(b), 5, 5 + |n|);
  }

  /** The colour name stands right after "bg-" in a band's background classes. */
  lemma NameInBackground(b: Band)
    ensures BackgroundOf(b)[3..3 + |ColorName(b)|] == ColorName(b)
  {
    var n := ColorName(b);
    SliceAfter("bg-", n);
    SliceOfLeft("bg-" + n, "-50 border-", 3, 3 + |n|);
    SliceOfLeft("bg-" + n + "-50 border-", n, 3, 3 + |n|);
    SliceOfLeft("bg-" + n + "-50 border-" + n, "-100", 3, 3 + |n|);
  }

  /** The colour name stands right after "text-" in the colour classes and right after "bg-" in the background. */
  lemma ClassesDistinguishBands(b: Band)
    ensures 5 + |ColorName(b)| <= |ColorClasses(b)| && ColorClasses(b)[5..5 + |ColorName(b)|] == ColorName(b)
    ensures 3 + |ColorName(b)| <= |BackgroundClasses(b)| && BackgroundClasses(b)[3..3 + |ColorName(b)|] == ColorName(b)
  {
    ClassesOfBand(b);
    NameInColorClasses(b);
    NameInBackground(b);
  }

  /**
    Both functions split scores at the same points: two scores get the same
    colour exactly when they get the same background, namely when they are in
    the same band.
  */
  lemma ColorAndBackgroundAgree(a: real, b: real)
    ensures GetScoreColor(a) == GetScoreColor(b) <==> BandOf(a) == BandOf(b)
    ensures GetScoreBg(a) == GetScoreBg(b) <==> BandOf(a) == BandOf(b)
  {
    var x, y := BandOf(a), BandOf(b);
    ClassesDistinguishBands(x);
    ClassesDistinguishBands(y);
    if x != y {
      assert ColorName(x)[0] != ColorName(y)[0];
      assert ColorClasses(x)[5] == ColorName(x)[0] && ColorClasses(y)[5] == ColorName(y)[0];
      assert BackgroundClasses(x)[3] == ColorName(x)[0] && BackgroundClasses(y)[3] == ColorName(y)[0];
    }
  }

  /** `s.split(' ')[0]`: the text before the first space. */
  function FirstToken(s: string): (t: string)
    ensures |t| <= |s| && t == s[..|t|]
    ensures ' ' !in t
    ensures |t| < |s| ==> s[|t|] == ' '
    decreases |s|
  {
    if s == [] || s[0] == ' ' then [] else [s[0]] + FirstToken(s[1..])
  }

  /** A band's text class is a single class that begins with "text-". */
  lemma TextClassIsOneClass(b: Band)
    ensures ' ' !in TextClass(b) && TextClass(b)[..5] == "text-"
  {
    assert ' ' !in ColorName(b) && ' ' !in Shade(b);
    var t := TextClass(b);
    forall k | 0 <= k < |t|
      ensures t[k] != ' '
    {
      if k < 5 {
        assert t[k] == "text-"[k];
      } else if k < 5 + |ColorName(b)| {
        assert t[k] == ColorName(b)[k - 5];
      } else if k == 5 + |ColorName(b)| {
        assert t[k] == '-';
      } else {
        assert t[k] == Shade(b)[k - 6 - |ColorName(b)|];
      }
    }
  }

  lemma {:induction false} FirstTokenOfJoin(a: string, b: string)
    requires ' ' !in a
    ensures FirstToken(a + " " + b) == a
    decreases |a|
  {
    if a != [] {
      assert (a + " " + b)[1..] == a[1..] + " " + b;
      FirstTokenOfJoin(a[1..], b);
      assert a == [a[0]] + a[1..];
    } else {
      assert (a + " " + b)[0] == ' ';
    }
  }

  /** The score's number is styled with the first class of `getScoreColor`, which is a `text-` class. */
  lemma ScoreTextClass(score: real)
    ensures FirstToken(GetScoreColor(score)) == TextClass(BandOf(score))
    ensures FirstToken(GetScoreColor(score))[..5] == "text-"
  {
    var b := BandOf(score);
    ClassesOfBand(b);
    TextClassIsOneClass(b);
    FirstTokenOfJoin(TextClass(b), StrokeClass(b));
  }

  // ---------------------------------------------------------------------------
  // RecCard
  // ---------------------------------------------------------------------------

  /** One `<li>` of a recommendation card. */
  datatype Note = Item(text: string) | NoNotes

  function Items(xs: seq<string>): (r: seq<Note>)
    ensures |r| == |xs|
    ensures forall i :: 0 <= i < |xs| ==> r[i] == Item(xs[i])
  {
    if xs == [] then [] else [Item(xs[0])] + Items(xs[1..])
  }

  /** `items?.length ? items.map(...) : <li>No specific notes</li>`; `items` is None when undefined. */
  function RecCard(items: Option<seq<string>>): (r: seq<Note>)
    ensures r == [NoNotes] <==> items.None? || items.value == []
    ensures items.Some? && items.value != [] ==>
              |r| == |items.value| && forall i :: 0 <= i < |r| ==> r[i] == Item(items.value[i])
  {
    if items.Some? && |items.value| > 0 then Items(items.value) else [NoNotes]
  }

  /** The texts shown on a card. */
  function Texts(notes: seq<Note>): seq<string>
  {
    if notes == [] then []
    else if notes[0].Item? then [notes[0].text] + Texts(notes[1..])
    else Texts(notes[1..])
  }

  /** A card with recommendations shows exactly those texts, in order. */
  lemma {:induction false} RecCardShowsItems(xs: seq<string>)
    requires xs != []
    ensures Texts(RecCard(Some(xs))) == xs
  {
    ItemsTexts(xs);
  }

  lemma {:induction false} ItemsTexts(xs: seq<string>)
    ensures Texts(Items(xs)) == xs
    decreases |xs|
  {
    if xs != [] {
      assert Items(xs)[1..] == Items(xs[1..]);
      ItemsTexts(xs[1..]);
    }
  }

  // ---------------------------------------------------------------------------
  // handleAnalyze
  // ---------------------------------------------------------------------------

  datatype View = UploadView | LoadingView | DashboardView | HistoryView

  /** The message of the Error thrown for a non-OK response: `data.message || "Analysis failed"`. */
  const AnalysisFailed: string := "Analysis failed"

  /** The messages V8 gives when `data.message` is read from a null or an undefined body. */
  const NullMessageRead: string := "Cannot read properties of null (reading 'message')"
  const UndefinedMessageRead: string := "Cannot read properties of undefined (reading 'message')"

  /**
    How the `fetch` call ended: a response with its `ok` flag and its parsed
    JSON body, or an error thrown by `fetch` or `res.json()` with its message.
  */
  datatype FetchOutcome = Responded(ok: bool, data: Value) | Threw(message: string)

  /** The state hooks `handleAnalyze` sets. */
  datatype UiState = UiState(view: View, loading: bool, analysis: Value, error: string)

  /**
    `err.message` for the Error thrown for a non-OK response with body `data`:
    `new Error(x)` keeps `String(x)` of a truthy message, so a number or a
    boolean message is shown as its text.
  */
  function FailureMessage(data: Value): (m: string)
    ensures data.Null? ==> m == NullMessageRead
    ensures data.Undefined? ==> m == UndefinedMessageRead
    ensures !data.Null? && !data.Undefined? && Truthy(Get(data, "message")) ==> m == ToString(Get(data, "message"))
    ensures !data.Null? && !data.Undefined? && !Truthy(Get(data, "message")) ==> m == AnalysisFailed
    ensures data.Obj? && "message" in data.fields && data.fields["message"].Str? && data.fields["message"].s != ""
            ==> m == data.fields["message"].s
  {
    if data.Null? then NullMessageRead
    else if data.Undefined? then UndefinedMessageRead
    else
      var msg := Get(data, "message");
      if Truthy(msg) then ToString(msg) else AnalysisFailed
  }

  /** A numeric message such as 5 is shown as "5", and `true` as "true". */
  lemma NonStringMessages(n: nat)
    requires n > 0
    ensures FailureMessage(Obj(map["message" := Num(n as real)])) == Decimal(n)
    ensures FailureMessage(Obj(map["message" := Bool(true)])) == "true"
  {
    assert (n as real).Floor == n;
  }

  /** The state `handleAnalyze(file)` leaves once its request has ended with `outcome`. */
  function AfterAnalyze(s: UiState, hasFile: bool, outcome: FetchOutcome): (t: UiState)
    ensures !hasFile ==> t == s
    ensures hasFile ==> !t.loading
    ensures hasFile ==> (t.view == DashboardView <==> outcome.Responded? && outcome.ok)
    ensures hasFile ==> (t.view == UploadView <==> !(outcome.Responded? && outcome.ok))
    ensures hasFile && outcome.Responded? && outcome.ok ==> t.analysis == outcome.data && t.error == ""
    ensures hasFile && outcome.Responded? && !outcome.ok ==> t.analysis == s.analysis && t.error == FailureMessage(outcome.data)
    ensures hasFile && outcome.Threw? ==> t.analysis == s.analysis && t.error == outcome.message
  {
    if !hasFile then s
    else match outcome
      case Responded(ok, data) =>
        if ok then UiState(DashboardView, false, data, "")
        else UiState(UploadView, false, s.analysis, FailureMessage(data))
      case Threw(message) => UiState(UploadView, false, s.analysis, message)
  }

  /**
    The uploaded file. `handleAnalyze` tests only its presence and hands it
    to the form data whole, so its name is carried but never read.
  */
  datatype File = File(name: string)

  class App {
    var view: View
    var loading: bool
    var analysis: Value
    var error: string

    function State(): UiState
      reads this
    {
      UiState(view, loading, analysis, error)
    }

    constructor ()
      ensures State() == UiState(UploadView, false, Null, "")
    {
      view := UploadView;
      loading := false;
      analysis := Null;
      error := "";
    }

    /** `handleAnalyze`: the request's result is the parameter `outcome`. */
    method HandleAnalyze(file: Option<File>, outcome: FetchOutcome)
      modifies this
      ensures State() == AfterAnalyze(old(State()), file.Some?, outcome)
    {
      if file.None? {
        return;
      }
      loading := true;
      view := LoadingView;
      error := "";
      match outcome {
        case Responded(ok, data) =>
          if ok {
            analysis := data;
            view := DashboardView;
          } else {
            error := FailureMessage(data);
            view := UploadView;
          }
        case Threw(message) =>
          error := message;
          view := UploadView;
      }
      loading := false;
    }
  }
}
