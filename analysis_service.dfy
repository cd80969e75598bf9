/**
  The analysis service (analysisService.js): the check on the OCR result, the
  prompt sent to the generative model, and the cleanup of the model's raw text
  before it is handed to the JSON parser.

  The cleanup deletes every "```json", then every remaining "```", and then
  trims white space from both ends. It is modelled as Clean, built from
  RemoveAll (a global replace of a literal pattern by the empty string) and
  Trim.
*/
module AnalysisService {
  import opened Wrappers

  const JsonFence: string := "```json"
  const Fence: string := "```"

  // ---------------------------------------------------------------------------
  // Occurrences and subsequences
  // ---------------------------------------------------------------------------

  /** `p` occurs as a contiguous substring of `s`. */
  predicate Occurs(p: string, s: string)
    decreases |s|
  {
    |p| <= |s| && (s[..|p|] == p || Occurs(p, s[1..]))
  }

  /** `a` is obtained from `b` by deleting characters. */
  predicate IsSubsequence(a: string, b: string)
    decreases |b|
  {
    a == [] || (b != [] && ((a[0] == b[0] && IsSubsequence(a[1..], b[1..])) || IsSubsequence(a, b[1..])))
  }

  lemma {:induction false} OccursInPrefix(p: string, s: string, j: nat)
    requires j <= |s|
    requires Occurs(p, s[..j])
    ensures Occurs(p, s)
    decreases |s|
  {
    if s[..j][..|p|] != p {
      assert s[..j][1..] == s[1..][..j - 1];
      OccursInPrefix(p, s[1..], j - 1);
    } else {
      assert s[..|p|] == s[..j][..|p|];
    }
  }

  lemma {:induction false} OccursInSuffix(p: string, s: string, i: nat)
    requires i <= |s|
    requires Occurs(p, s[i..])
    ensures Occurs(p, s)
    decreases i
  {
    if i > 0 {
      assert s[i..] == s[1..][i - 1..];
      OccursInSuffix(p, s[1..], i - 1);
    }
  }

  /** A pattern that does not occur in `s` does not occur in any slice of it. */
  lemma OccursInSlice(p: string, s: string, i: nat, j: nat)
    requires i <= j <= |s|
    requires Occurs(p, s[i..j])
    ensures Occurs(p, s)
  {
    assert s[i..j] == s[i..][..j - i];
    OccursInPrefix(p, s[i..], j - i);
    OccursInSuffix(p, s, i);
  }

  /** Where `p + q` occurs, `p` occurs. */
  lemma {:induction false} OccursOfExtension(p: string, q: string, s: string)
    requires Occurs(p + q, s)
    ensures Occurs(p, s)
    decreases |s|
  {
    if s[..|p + q|] == p + q {
      assert s[..|p|] == (p + q)[..|p|] == p;
    } else {
      OccursOfExtension(p, q, s[1..]);
    }
  }

  lemma {:induction false} SubsequenceRefl(s: string)
    ensures IsSubsequence(s, s)
    decreases |s|
  {
    if s != [] {
      SubsequenceRefl(s[1..]);
    }
  }

  lemma {:induction false} SubsequenceOfSuffix(a: string, b: string, k: nat)
    requires k <= |b|
    requires IsSubsequence(a, b[k..])
    ensures IsSubsequence(a, b)
    decreases k
  {
    if k > 0 {
      assert b[k..] == b[1..][k - 1..];
      SubsequenceOfSuffix(a, b[1..], k - 1);
    }
  }

  lemma {:induction false} SliceIsSubsequence(s: string, i: nat, j: nat)
    requires i <= j <= |s|
    ensures IsSubsequence(s[i..j], s)
    decreases |s|
  {
    if i == j {
    } else if i > 0 {
      SliceIsSubsequence(s[i..], 0, j - i);
      assert s[i..][0..j - i] == s[i..j];
      SubsequenceOfSuffix(s[i..j], s, i);
    } else {
      assert s[i..j][1..] == s[1..][0..j - 1];
      SliceIsSubsequence(s[1..], 0, j - 1);
    }
  }

  lemma {:induction false} SubsequenceTrans(a: string, b: string, c: string)
    requires IsSubsequence(a, b) && IsSubsequence(b, c)
    ensures IsSubsequence(a, c)
    decreases |c|
  {
    if a != [] {
      if IsSubsequence(b, c[1..]) {
        SubsequenceTrans(a, b, c[1..]);
      } else if a[0] == b[0] && IsSubsequence(a[1..], b[1..]) {
        SubsequenceTrans(a[1..], b[1..], c[1..]);
      } else {
        SubsequenceTrans(a, b[1..], c[1..]);
      }
    }
  }

  // ---------------------------------------------------------------------------
  // Global replace of a literal by the empty string
  // ---------------------------------------------------------------------------

  /**
    `s.replace(/p/g, '')` for a literal pattern `p`: scanning from the left,
    each match is deleted and the scan resumes after it; the text produced by
    a deletion is not scanned again.
  */
  function RemoveAll(s: string, p: string): (r: string)
    requires |p| > 0
    ensures |r| <= |s|
    decreases |s|
  {
    if |s| < |p| then s
    else if s[..|p|] == p then RemoveAll(s[|p|..], p)
    else [s[0]] + RemoveAll(s[1..], p)
  }

  /** A first character that cannot start a match is kept. */
  lemma HeadKept(s: string, p: string)
    requires |p| > 0 && s != [] && s[0] != p[0]
    ensures RemoveAll(s, p) == [s[0]] + RemoveAll(s[1..], p)
  {
  }

  /** Deleting a pattern only deletes characters. */
  lemma {:induction false} RemoveAllIsSubsequence(s: string, p: string)
    requires |p| > 0
    ensures IsSubsequence(RemoveAll(s, p), s)
    decreases |s|
  {
    if |s| < |p| {
      SubsequenceRefl(s);
    } else if s[..|p|] == p {
      RemoveAllIsSubsequence(s[|p|..], p);
      SubsequenceOfSuffix(RemoveAll(s[|p|..], p), s, |p|);
    } else {
      RemoveAllIsSubsequence(s[1..], p);
      assert ([s[0]] + RemoveAll(s[1..], p))[1..] == RemoveAll(s[1..], p);
    }
  }

  /** Text in which the pattern does not occur is left as it is. */
  lemma {:induction false} RemoveAllAbsent(s: string, p: string)
    requires |p| > 0 && !Occurs(p, s)
    ensures RemoveAll(s, p) == s
    decreases |s|
  {
    if |s| >= |p| {
      RemoveAllAbsent(s[1..], p);
      assert s == [s[0]] + s[1..];
    }
  }

  /** A prefix free of the pattern's first character passes through unchanged. */
  lemma {:induction false} RemoveAllKeepsPrefix(b: string, t: string, p: string)
    requires |p| > 0 && p[0] !in b
    ensures RemoveAll(b + t, p) == b + RemoveAll(t, p)
    decreases |b|
  {
    if b == [] {
      assert b + t == t;
    } else {
      var s := b + t;
      assert s[0] == b[0] && b[0] in b;
      HeadKept(s, p);
      assert s[1..] == b[1..] + t;
      RemoveAllKeepsPrefix(b[1..], t, p);
      ConsAppend(b[0], b[1..], RemoveAll(t, p));
      assert [b[0]] + b[1..] == b;
    }
  }

  lemma ConsAppend(c: char, x: string, y: string)
    ensures [c] + (x + y) == ([c] + x) + y
  {
  }

  /**
    After every "```" has been deleted in one pass, no "```" is left: a kept
    backtick is followed, within two characters, by a kept non-backtick or by
    the end of the text.
  */
  lemma {:induction false} NoFenceAfterRemoval(s: string)
    ensures !Occurs(Fence, RemoveAll(s, Fence))
    decreases |s|
  {
    if |s| < 3 {
    } else if s[..3] == Fence {
      NoFenceAfterRemoval(s[3..]);
    } else {
      var rest := RemoveAll(s[1..], Fence);
      NoFenceAfterRemoval(s[1..]);
      var r := [s[0]] + rest;
      assert r[1..] == rest;
      if |rest| >= 2 {
        if s[0] != '`' {
        } else if s[1] != '`' {
          HeadKept(s[1..], Fence);
          assert rest[0] == s[1];
        } else if |s| == 3 {
          assert rest == s[1..];
        } else {
          assert s[2] != '`';
          assert s[1..][..3][1] == s[2];
          assert rest == [s[1]] + RemoveAll(s[1..][1..], Fence);
          assert s[1..][1..] == s[2..];
          HeadKept(s[2..], Fence);
          assert rest[1] == s[2];
        }
        assert r[..3] != Fence;
      }
    }
  }

  // ---------------------------------------------------------------------------
  // String.prototype.trim
  // ---------------------------------------------------------------------------

  /** ECMAScript WhiteSpace and LineTerminator code points, which `trim` removes. */
  predicate IsWhiteSpace(c: char)
  {
    || c == '\t' || c == '\n' || c == '\U{000B}' || c == '\U{000C}' || c == '\r'
    || c == ' ' || c == '\U{00A0}' || c == '\U{1680}'
    || ('\U{2000}' <= c <= '\U{200A}')
    || c == '\U{2028}' || c == '\U{2029}' || c == '\U{202F}' || c == '\U{205F}'
    || c == '\U{3000}' || c == '\U{FEFF}'
  }

  /** Drops leading white space (TrimStartSpec states what it keeps). */
  function TrimStart(s: string): (r: string)
    ensures |r| <= |s|
    decreases |s|
  {
    if s != [] && IsWhiteSpace(s[0]) then TrimStart(s[1..]) else s
  }

  /** Drops trailing white space (TrimEndSpec states what it keeps). */
  function TrimEnd(s: string): (r: string)
    ensures |r| <= |s|
    decreases |s|
  {
    if s != [] && IsWhiteSpace(s[|s| - 1]) then TrimEnd(s[..|s| - 1]) else s
  }

  /** `s.trim()`. */
  function Trim(s: string): (r: string)
    ensures |r| <= |s|
  {
    TrimEnd(TrimStart(s))
  }

  /** TrimStart keeps a suffix of `s`, drops only white space, and stops at a non-space. */
  lemma {:induction false} TrimStartSpec(s: string)
    ensures var r := TrimStart(s);
            && |r| <= |s| && r == s[|s| - |r|..]
            && (forall k :: 0 <= k < |s| - |r| ==> IsWhiteSpace(s[k]))
            && (r == [] || !IsWhiteSpace(r[0]))
    decreases |s|
  {
    if s != [] && IsWhiteSpace(s[0]) {
      TrimStartSpec(s[1..]);
    }
  }

  /** TrimEnd keeps a prefix of `s`, drops only white space, and stops at a non-space. */
  lemma {:induction false} TrimEndSpec(s: string)
    ensures var r := TrimEnd(s);
            && |r| <= |s| && r == s[..|r|]
            && (forall k :: |r| <= k < |s| ==> IsWhiteSpace(s[k]))
            && (r == [] || !IsWhiteSpace(r[|r| - 1]))
    decreases |s|
  {
    if s != [] && IsWhiteSpace(s[|s| - 1]) {
      TrimEndSpec(s[..|s| - 1]);
      var r := TrimEnd(s);
      assert s[..|s| - 1][..|r|] == s[..|r|];
    }
  }

  /** A prefix of a suffix is a slice. */
  lemma PrefixOfSuffix(s: string, i: nat, n: nat)
    requires i + n <= |s|
    ensures s[i..][..n] == s[i..i + n]
  {
  }

  /** White space at the end of the suffix `s[i..]` is white space at the end of `s`. */
  lemma WhiteTailOfSuffix(s: string, i: nat, m: nat)
    requires i + m <= |s|
    requires forall k :: m <= k < |s| - i ==> IsWhiteSpace(s[i..][k])
    ensures forall k :: i + m <= k < |s| ==> IsWhiteSpace(s[k])
  {
    forall k | i + m <= k < |s|
      ensures IsWhiteSpace(s[k])
    {
      assert s[k] == s[i..][k - i];
    }
  }

  /**
    Trim keeps the slice of `s` left after dropping white space at both ends,
    and what it keeps neither starts nor ends with white space.
  */
  lemma TrimSpec(s: string)
    ensures var r := Trim(s);
            var i := |s| - |TrimStart(s)|;
            && i + |r| <= |s| && r == s[i..i + |r|]
            && (forall k :: 0 <= k < i ==> IsWhiteSpace(s[k]))
            && (forall k :: i + |r| <= k < |s| ==> IsWhiteSpace(s[k]))
            && (r == [] || (!IsWhiteSpace(r[0]) && !IsWhiteSpace(r[|r| - 1])))
  {
    var t := TrimStart(s);
    var r := TrimEnd(t);
    var i := |s| - |t|;
    assert Trim(s) == r;
    TrimStartSpec(s);
    TrimEndSpec(t);
    PrefixOfSuffix(s, i, |r|);
    WhiteTailOfSuffix(s, i, |r|);
    if r != [] {
      assert r[0] == t[0];
    }
  }

  lemma TrimIdempotent(s: string)
    ensures Trim(Trim(s)) == Trim(s)
  {
    TrimSpec(s);
  }

  lemma TrimIsSubsequence(s: string)
    ensures IsSubsequence(Trim(s), s)
  {
    TrimSpec(s);
    var r := Trim(s);
    var i := |s| - |TrimStart(s)|;
    SliceIsSubsequence(s, i, i + |r|);
  }

  lemma TrimKeepsAbsence(p: string, s: string)
    requires !Occurs(p, s)
    ensures !Occurs(p, Trim(s))
  {
    TrimSpec(s);
    var r := Trim(s);
    var i := |s| - |TrimStart(s)|;
    if Occurs(p, r) {
      OccursInSlice(p, s, i, i + |r|);
    }
  }

  lemma {:induction false} TrimStartAppend(b: string, c: char)
    ensures TrimStart(b + [c]) == if TrimStart(b) == [] then TrimStart([c]) else TrimStart(b) + [c]
    decreases |b|
  {
    if b != [] {
      assert (b + [c])[0] == b[0];
      assert (b + [c])[1..] == b[1..] + [c];
      TrimStartAppend(b[1..], c);
    } else {
      assert b + [c] == [c];
    }
  }

  lemma TrimEndAppendSpace(t: string, w: char)
    requires IsWhiteSpace(w)
    ensures TrimEnd(t + [w]) == TrimEnd(t)
  {
    assert (t + [w])[..|t|] == t;
  }

  /** White space around a text does not change its trimmed form. */
  lemma TrimWrapped(b: string, w1: char, w2: char)
    requires IsWhiteSpace(w1) && IsWhiteSpace(w2)
    ensures Trim([w1] + b + [w2]) == Trim(b)
  {
    var x := [w1] + b + [w2];
    assert x[0] == w1 && x[1..] == b + [w2];
    assert TrimStart(x) == TrimStart(b + [w2]);
    TrimStartAppend(b, w2);
    var t := TrimStart(b);
    if t == [] {
      assert [w2][1..] == [];
      assert TrimStart([w2]) == TrimStart([]) == [];
    } else {
      TrimEndAppendSpace(t, w2);
    }
  }

  // ---------------------------------------------------------------------------
  // The cleanup of the model's raw answer
  // ---------------------------------------------------------------------------

  /** The cleanup applied to the model's raw text before it is parsed as JSON. */
  function Clean(raw: string): (r: string)
    ensures |r| <= |raw|
  {
    Trim(RemoveAll(RemoveAll(raw, JsonFence), Fence))
  }

  /** No triple backtick survives the cleanup, and it leaves no surrounding white space. */
  lemma CleanIsFenceFree(raw: string)
    ensures !Occurs(Fence, Clean(raw))
    ensures Clean(raw) == [] || (!IsWhiteSpace(Clean(raw)[0]) && !IsWhiteSpace(Clean(raw)[|Clean(raw)| - 1]))
  {
    var u := RemoveAll(raw, JsonFence);
    NoFenceAfterRemoval(u);
    TrimKeepsAbsence(Fence, RemoveAll(u, Fence));
    TrimSpec(RemoveAll(u, Fence));
  }

  /** The cleanup only deletes characters. */
  lemma CleanIsSubsequence(raw: string)
    ensures IsSubsequence(Clean(raw), raw)
  {
    var u := RemoveAll(raw, JsonFence);
    var v := RemoveAll(u, Fence);
    RemoveAllIsSubsequence(raw, JsonFence);
    RemoveAllIsSubsequence(u, Fence);
    TrimIsSubsequence(v);
    SubsequenceTrans(v, u, raw);
    SubsequenceTrans(Clean(raw), v, raw);
  }

  /** Cleaning an already cleaned text changes nothing. */
  lemma CleanIdempotent(raw: string)
    ensures Clean(Clean(raw)) == Clean(raw)
  {
    var t := Clean(raw);
    CleanIsFenceFree(raw);
    if Occurs(JsonFence, t) {
      assert JsonFence == Fence + "json";
      OccursOfExtension(Fence, "json", t);
    }
    RemoveAllAbsent(t, JsonFence);
    RemoveAllAbsent(t, Fence);
    TrimIdempotent(RemoveAll(RemoveAll(raw, JsonFence), Fence));
  }

  /** Text with no backtick in it is only trimmed. */
  lemma CleanWithoutBackticks(raw: string)
    requires '`' !in raw
    ensures Clean(raw) == Trim(raw)
  {
    RemoveAllKeepsPrefix(raw, [], JsonFence);
    RemoveAllKeepsPrefix(raw, [], Fence);
    assert raw + [] == raw;
  }

  /** An answer wrapped in a ```json code block cleans to the same text as the bare answer. */
  lemma CleanFenced(body: string)
    requires '`' !in body
    ensures Clean("```json\n" + body + "\n```") == Clean(body) == Trim(body)
  {
    var fenced := "```json\n" + body + "\n```";
    var inner := "\n" + body + "\n";
    assert fenced == JsonFence + (inner + Fence);
    assert fenced[..|JsonFence|] == JsonFence;
    assert fenced[|JsonFence|..] == inner + Fence;
    assert '`' !in inner;
    RemoveAllKeepsPrefix(inner, Fence, JsonFence);
    assert RemoveAll(Fence, JsonFence) == Fence;
    RemoveAllKeepsPrefix(inner, Fence, Fence);
    assert RemoveAll(Fence, Fence) == [];
    assert inner + [] == [inner[0]] + body + [inner[|inner| - 1]];
    TrimWrapped(body, '\n', '\n');
    CleanWithoutBackticks(body);
  }

  // ---------------------------------------------------------------------------
  // The OCR check and the prompt
  // ---------------------------------------------------------------------------

  /**
    One entry of the OCR service's `textAnnotations`; the first holds the full
    text. `description` is None when the entry has none.
  */
  datatype TextAnnotation = TextAnnotation(description: Option<string>)

  const NoTextError: string := "No text found in the document. Is it a valid image/PDF?"

  /** The TypeError V8 raises for `fullText.length` when the first entry has no description. */
  const NoDescriptionError: string := "Cannot read properties of undefined (reading 'length')"

  /**
    The OCR step: the text of the first annotation, or the error that ends the
    call. `ocr` is how `textDetection` ended: the message of its rejection, or
    its `textAnnotations`, None when missing.
  */
  function ExtractText(ocr: Result<Option<seq<TextAnnotation>>, string>): (r: Result<string, string>)
    ensures ocr.Failure? ==> r == Failure(ocr.error)
    ensures ocr.Success? && (ocr.value.None? || |ocr.value.value| == 0) ==> r == Failure(NoTextError)
    ensures ocr.Success? && ocr.value.Some? && |ocr.value.value| > 0 ==>
              var first := ocr.value.value[0].description;
              && (first.None? ==> r == Failure(NoDescriptionError))
              && (first.Some? ==> r == Success(first.value))
  {
    match ocr
    case Failure(e) => Failure(e)
    case Success(detections) =>
      if detections.None? || |detections.value| == 0 then Failure(NoTextError)
      else if detections.value[0].description.None? then Failure(NoDescriptionError)
      else Success(detections.value[0].description.value)
  }

  const PromptIntro: string :=
    "\n      You are a medical fitness expert. Analyze the following medical report text.\n"
    + "      \n"
    + "      TEXT:\n"

  /** The `"""` line that opens the OCR text, and the indentation of the text's first line. */
  const OpenDelimiter: string := "      \"\"\"\n      "

  /** The line break before the closing `"""` line. */
  const CloseDelimiter: string := "\n      \"\"\""

  /** The lines of the prompt after the OCR text, from the end of the `"""` line to the closing backtick. */
  const PromptTailLines: seq<string> := [
    "\n",
    "\n",
    "      TASK:\n",
    "      1. Extract BMI, Blood Pressure, Blood Sugar, and Cholesterol if present.\n",
    "      2. If BMI is not present but height/weight are, calculate BMI.\n",
    "      3. Assign a \"FitScore\" from 0-100 based on the vitals (100 is perfect health).\n",
    "      4. Determine BMI Status (Underweight, Healthy Weight, Overweight, Obese).\n",
    "      5. Create a 3-item simplified diet plan based on the findings.\n",
    "\n",
    "      OUTPUT FORMAT:\n",
    "      Return ONLY valid JSON. Do not include markdown formatting like ```json.\n",
    "      \n",
    "      JSON Structure:\n",
    "      {\n",
    "        \"score\": 85,\n",
    "        \"summary\": \"Short summary of health status (max 20 words).\",\n",
    "        \"bmi\": 24.5,\n",
    "        \"bmiStatus\": \"Healthy Weight\",\n",
    "        \"vitals\": {\n",
    "          \"bp\": \"120/80 mmHg\",\n",
    "          \"sugar\": \"95 mg/dL\",\n",
    "          \"cholesterol\": \"180 mg/dL\"\n",
    "        },\n",
    "        \"dietPlan\": [\n",
    "          \"Recommendation 1\",\n",
    "          \"Recommendation 2\",\n",
    "          \"Recommendation 3\"\n",
    "        ]\n",
    "      }\n",
    "      \n",
    "      If a value is missing in the text, use \"N/A\" for strings or 0 for numbers.\n",
    "    "
  ]

  /** The lines joined in order; each line carries its own line break. */
  function Concat(lines: seq<string>): string
  {
    if lines == [] then "" else lines[0] + Concat(lines[1..])
  }

  const PromptTail: string := Concat(PromptTailLines)

  /** The pieces of a five-part concatenation are found at their offsets. */
  lemma PiecesAt(a: string, b: string, c: string, d: string, e: string)
    ensures var i := |a| + |b|;
            && |a + b + c + d + e| == i + |c| + |d| + |e|
            && (a + b + c + d + e)[|a|..i] == b
            && (a + b + c + d + e)[i..i + |c|] == c
            && (a + b + c + d + e)[i + |c|..i + |c| + |d|] == d
  {
    var s := a + b + c + d + e;
    var i := |a| + |b|;
    assert s == (a + b) + (c + (d + e));
    assert s[|a|..i] == (a + b)[|a|..];
    assert s[i..] == c + (d + e);
    assert s[i..i + |c|] == s[i..][..|c|];
    assert s[i + |c|..i + |c| + |d|] == s[i..][|c|..|c| + |d|];
  }

  /** The prompt for the generative model: the OCR text placed verbatim between `"""` lines. */
  function BuildPrompt(fullText: string): (prompt: string)
    ensures var i := |PromptIntro| + |OpenDelimiter|;
            && |prompt| == i + |fullText| + |CloseDelimiter| + |PromptTail|
            && prompt[|PromptIntro|..i] == OpenDelimiter
            && prompt[i..i + |fullText|] == fullText
            && prompt[i + |fullText|..i + |fullText| + |CloseDelimiter|] == CloseDelimiter
  {
    PiecesAt(PromptIntro, OpenDelimiter, fullText, CloseDelimiter, PromptTail);
    PromptIntro + OpenDelimiter + fullText + CloseDelimiter + PromptTail
  }

  /** What one call of `analyzeMedicalReport` does: the prompt it sends, if any, and its outcome. */
  datatype Analysis = Analysis(request: Option<string>, result: Result<string, string>)

  /**
    The part of `analyzeMedicalReport` after the prompt is built. The generative
    model is the function `generate`, which returns the text of the first
    candidate or the message of the error it raised. A successful result is the
    cleaned text handed to JSON.parse; every error is rethrown.
  */
  function Respond(prompt: string, generate: string -> Result<string, string>): (a: Analysis)
    ensures a.request == Some(prompt)
    ensures generate(prompt).Failure? ==> a.result == generate(prompt)
    ensures generate(prompt).Success? ==> a.result == Success(Clean(generate(prompt).value))
    ensures a.result.Success? ==> generate(prompt).Success? && !Occurs(Fence, a.result.value)
  {
    var out := generate(prompt);
    if out.Success? then
      CleanIsFenceFree(out.value);
      Analysis(Some(prompt), Success(Clean(out.value)))
    else
      Analysis(Some(prompt), out)
  }

  /**
    `analyzeMedicalReport`. When the OCR step fails, no prompt is sent and its
    error is rethrown; otherwise the prompt is built from the text and the rest
    is Respond.
  */
  function AnalyzeMedicalReport(ocr: Result<Option<seq<TextAnnotation>>, string>, generate: string -> Result<string, string>): (a: Analysis)
    ensures a.request.None? <==> ExtractText(ocr).Failure?
    ensures a.request.None? ==> a.result == Failure(ExtractText(ocr).error)
    ensures ExtractText(ocr).Success? ==> a == Respond(BuildPrompt(ExtractText(ocr).value), generate)
  {
    var text := ExtractText(ocr);
    if text.Failure? then
      Analysis(None, Failure(text.error))
    else
      Respond(BuildPrompt(text.value), generate)
  }
}
