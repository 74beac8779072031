/** The assistant's translator front end (praterich_ai.py): cleaning the
    language model's reply text, the fixed `NONE` error envelopes, the
    plain-text answer used for summaries, and the command-line entry point.
    The language-model call itself is a parameter: a `Reply`. */
module Praterich {
  import opened Wrappers
  import opened PyStr
  import JsonText
  import Vocabulary

  /** What one language-model call produced: the `text` of the response
      (which the client library may leave as `None`), or an exception whose
      `str()` is `error`. */
  datatype Reply = Answered(text: Option<string>) | Failed(error: string)

  const Opener := "```json"
  const Closer := "```"

  /** `str()` of the exception raised by calling `.strip()` on a `None` text. */
  const NoneStripError := "'NoneType' object has no attribute 'strip'"

  /** The second step of cleaning: one leading "```json", if present, is
      cut off and the rest stripped again. */
  function DropOpener(t: string): (r: string)
    ensures !StartsWith(t, Opener) ==> r == t
    ensures StartsWith(t, Opener) ==> Trimmed(r) && IsSlice(r, t[|Opener|..])
    ensures |r| <= |t|
    ensures IsSlice(r, t)
  {
    if StartsWith(t, Opener) then
      StripIsSlice(t[|Opener|..]);
      SuffixIsSlice(t, |Opener|);
      SliceTrans(Strip(t[|Opener|..]), t[|Opener|..], t);
      Strip(t[|Opener|..])
    else
      assert t == t[0..|t|];
      t
  }

  /** The third step: one trailing "```", if present, is cut off and the
      rest stripped again. */
  function DropCloser(t: string): (r: string)
    ensures !EndsWith(t, Closer) ==> r == t
    ensures EndsWith(t, Closer) ==> Trimmed(r) && IsSlice(r, t[..|t| - |Closer|])
    ensures |r| <= |t|
    ensures IsSlice(r, t)
  {
    if EndsWith(t, Closer) then
      StripIsSlice(t[..|t| - |Closer|]);
      PrefixIsSlice(t, |t| - |Closer|);
      SliceTrans(Strip(t[..|t| - |Closer|]), t[..|t| - |Closer|], t);
      Strip(t[..|t| - |Closer|])
    else
      assert t == t[0..|t|];
      t
  }

  /** The fence-removal step of `get_praterich_response`: strip, drop one
      leading "```json", strip, drop one trailing "```", strip. */
  function CleanReply(raw: string): (r: string)
    ensures Trimmed(r)
    ensures |r| <= |raw|
  {
    DropCloser(DropOpener(Strip(raw)))
  }

  lemma SliceTrans(a: string, b: string, c: string)
    requires IsSlice(a, b) && IsSlice(b, c)
    ensures IsSlice(a, c)
  {
    var i, j :| 0 <= i <= j <= |b| && a == b[i..j];
    var k, l :| 0 <= k <= l <= |c| && b == c[k..l];
    assert |a| == |c[k + i..k + j]|;
    forall m | 0 <= m < |a|
      ensures a[m] == c[k + i..k + j][m]
    {
      assert a[m] == b[i + m];
    }
  }

  lemma StripIsSlice(s: string)
    ensures IsSlice(Strip(s), s)
  {
    var i := |s| - |LStrip(s)|;
    assert Strip(s) == s[i..i + |Strip(s)|];
  }

  lemma SuffixIsSlice(s: string, k: nat)
    requires k <= |s|
    ensures IsSlice(s[k..], s)
  {
    assert s[k..] == s[k..|s|];
  }

  lemma PrefixIsSlice(s: string, k: nat)
    requires k <= |s|
    ensures IsSlice(s[..k], s)
  {
    assert s[..k] == s[0..k];
  }

  /** The cleaned text is one contiguous run of the raw text: cleaning only
      cuts characters off the two ends. */
  lemma CleanReplyIsSlice(raw: string)
    ensures IsSlice(CleanReply(raw), raw)
  {
    var t0 := Strip(raw);
    var t1 := DropOpener(t0);
    StripIsSlice(raw);
    SliceTrans(t1, t0, raw);
    SliceTrans(DropCloser(t1), t1, raw);
  }

  /** Fenced text cleans to its stripped content: the "```json" … "```"
      wrapper the model sometimes adds is removed, whatever is inside. */
  lemma CleanFenced(p: string)
    ensures CleanReply(Opener + p + Closer) == Strip(p)
  {
    var raw := Opener + p + Closer;
    StripTrimmed(raw);
    OpenerDropped(p);
    CloserDropped(LStrip(p));
    LStripIsStripPrefix(p);
  }

  /** Cutting the opener off fenced text leaves its content, stripped on
      the left only, followed by the closer. */
  lemma OpenerDropped(p: string)
    ensures DropOpener(Opener + p + Closer) == LStrip(p) + Closer
  {
    var raw := Opener + p + Closer;
    assert raw[..|Opener|] == Opener;
    var u := raw[|Opener|..];
    assert u == p + Closer;
    LStripAppend(p, Closer);
    StripOfRightTrimmed(u);
  }

  /** Cutting the closer off text that ends with it strips what precedes it. */
  lemma CloserDropped(q: string)
    ensures DropCloser(q + Closer) == Strip(q)
  {
    var t := q + Closer;
    assert t[|t| - |Closer|..] == Closer;
    assert t[..|t| - |Closer|] == q;
  }

  lemma LStripIsStripPrefix(p: string)
    ensures Strip(LStrip(p)) == Strip(p)
  {
  }

  /** Text whose stripped form has no fence at either end comes back only
      stripped. */
  lemma CleanUnfenced(raw: string)
    requires !StartsWith(Strip(raw), Opener) && !EndsWith(Strip(raw), Closer)
    ensures CleanReply(raw) == Strip(raw)
  {
  }

  /** A bare JSON object, `{` … `}` with nothing around it, passes through
      cleaning unchanged. */
  lemma CleanBareObject(raw: string)
    requires |raw| >= 2 && raw[0] == '{' && raw[|raw| - 1] == '}'
    ensures CleanReply(raw) == raw
  {
    StripTrimmed(raw);
    assert !StartsWith(raw, Opener) by { assert raw[0] != Opener[0]; }
    assert !EndsWith(raw, Closer) by { assert raw[|raw| - 1] != Closer[2]; }
  }

  /** Only one exact, case-sensitive opener is removed: a second "```json"
      after the first survives cleaning. */
  lemma CleanDoubleOpener(p: string)
    ensures CleanReply(Opener + (Opener + p + Closer)) == Strip(Opener + p)
    ensures StartsWith(CleanReply(Opener + (Opener + p + Closer)), Opener)
  {
    var q := Opener + p;
    calc {
      Opener + (Opener + p + Closer);
      Opener + (q + Closer);
      Opener + q + Closer;
    }
    CleanFenced(q);
    assert StartsWith(q, Opener);
    StripKeepsPrefix(q, Opener);
  }

  /** Stripping text that starts with a prefix ending in a non-space
      character, and not starting with whitespace, keeps that prefix. */
  lemma StripKeepsPrefix(s: string, prefix: string)
    requires StartsWith(s, prefix) && |prefix| > 0
    requires !IsSpace(prefix[0]) && !IsSpace(prefix[|prefix| - 1])
    ensures StartsWith(Strip(s), prefix)
  {
    assert s[0] == prefix[0];
    assert LStrip(s) == s;
    RStripKeepsPrefix(s, prefix);
  }

  lemma RStripKeepsPrefix(s: string, prefix: string)
    requires StartsWith(s, prefix) && |prefix| > 0 && !IsSpace(prefix[|prefix| - 1])
    ensures StartsWith(RStrip(s), prefix)
  {
    var r := RStrip(s);
    var k := |prefix| - 1;
    assert s[k] == prefix[k];
    assert !IsSpace(s[k]);
    assert k < |r|;
    assert r[..|prefix|] == s[..|prefix|];
  }

  /** A bare "```" opener (not followed by "json") is not an opener: it is
      left in place at the start of the cleaned text. */
  lemma CleanBareFence(raw: string)
    requires StartsWith(Strip(raw), Closer) && !StartsWith(Strip(raw), Opener)
    requires |Strip(raw)| >= 2 * |Closer|
    ensures StartsWith(CleanReply(raw), Closer)
  {
    var t := Strip(raw);
    if EndsWith(t, Closer) {
      var v := t[..|t| - |Closer|];
      assert v[..|Closer|] == t[..|Closer|];
      StripKeepsPrefix(v, Closer);
    }
  }

  /** The `{"command": "NONE", "query": "", "message": …}` envelope, as
      `json.dumps` writes it. */
  function NoneEnvelope(message: string): (r: string)
    ensures JsonText.LoadsIntent(r) == Some(("NONE", "", message))
  {
    JsonText.LoadsDumpsIntent("NONE", "", message);
    JsonText.DumpsIntent("NONE", "", message)
  }

  /** The envelope's command is the vocabulary member `NONE`, which the
      dispatcher has no branch for. */
  lemma EnvelopeCommandIsMember(message: string)
    ensures var decoded := JsonText.LoadsIntent(NoneEnvelope(message));
      decoded.Some? && Vocabulary.FromName(decoded.value.0) == Some(Vocabulary.NONE)
  {
    Vocabulary.FromNameName(Vocabulary.NONE);
  }

  const ErrorPrefix := "I'm sorry, an error occurred: "
  const NoQueryMessage := "No query provided."
  const TextErrorPrefix := "I'm sorry, an error occurred while processing your text: "

  /** What `get_praterich_response` prints for one model reply (the line,
      without the newline `print` adds): the cleaned reply text, or, if
      anything raised, the `NONE` envelope whose message carries the
      exception. */
  function ResponseLine(reply: Reply): (r: string)
    ensures reply.Answered? && reply.text.Some? ==> r == CleanReply(reply.text.value)
    ensures reply.Failed? ==>
      JsonText.LoadsIntent(r) == Some(("NONE", "", ErrorPrefix + reply.error))
    ensures reply == Answered(None) ==>
      JsonText.LoadsIntent(r) == Some(("NONE", "", ErrorPrefix + NoneStripError))
  {
    match reply
    case Answered(Some(t)) => CleanReply(t)
    case Answered(None) => NoneEnvelope(ErrorPrefix + NoneStripError)
    case Failed(e) => NoneEnvelope(ErrorPrefix + e)
  }

  /** What `print(line)` writes. */
  function Printed(line: string): (out: string)
    ensures |out| == |line| + 1 && out[..|line|] == line && out[|line|] == '\n'
  {
    line + "\n"
  }

  /** The script's standard output for command-line arguments `argv`
      (`argv[0]` is the script): the response to `argv[1]`, or the
      "No query provided." envelope. The model is `model`. */
  function RunScript(argv: seq<string>, model: string -> Reply): (out: string)
    ensures |out| > 0 && out[|out| - 1] == '\n'
    ensures |argv| > 1 ==> out[..|out| - 1] == ResponseLine(model(argv[1]))
    ensures |argv| <= 1 ==>
      JsonText.LoadsIntent(out[..|out| - 1]) == Some(("NONE", "", NoQueryMessage))
  {
    if |argv| > 1 then Printed(ResponseLine(model(argv[1])))
    else Printed(NoneEnvelope(NoQueryMessage))
  }

  /** `get_praterich_response_text`: never raises; returns the stripped
      model text, or an apology that carries the exception text. */
  function ResponseText(reply: Reply): (r: string)
    ensures reply.Answered? && reply.text.Some? ==> r == Strip(reply.text.value)
    ensures reply.Failed? ==> r == TextErrorPrefix + reply.error
    ensures reply == Answered(None) ==> r == TextErrorPrefix + NoneStripError
    ensures Trimmed(r) || StartsWith(r, TextErrorPrefix)
  {
    match reply
    case Answered(Some(t)) => Strip(t)
    case Answered(None) => TextErrorPrefix + NoneStripError
    case Failed(e) => TextErrorPrefix + e
  }
}
