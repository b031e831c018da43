/**
 * The code snippets shown beside the demos: the model name is escaped for a
 * JavaScript template literal and substituted into the template of the chosen
 * API surface.
 */
module Snippets {
  import opened Text
  import opened Upstream

  const Backtick := '`'
  const Backslash := '\\'

  /** What one character becomes: a backtick gains a backslash in front, everything else stays. */
  function EscapeChar(c: char): string
  {
    if c == Backtick then [Backslash, Backtick] else [c]
  }

  /**
   * `escapeBackticks(model)`: every backtick replaced by backslash-backtick,
   * every other character unchanged.
   */
  function EscapeBackticks(s: string): (r: string)
    ensures forall i :: 0 <= i < |r| && r[i] == Backtick ==> 0 < i && r[i - 1] == Backslash
    ensures s != [] ==> r != [] && r[0] == (if s[0] == Backtick then Backslash else s[0])
  {
    if s == [] then []
    else
      var rest := EscapeBackticks(s[1..]);
      var r := EscapeChar(s[0]) + rest;
      assert forall i :: |EscapeChar(s[0])| <= i < |r| ==> r[i] == rest[i - |EscapeChar(s[0])|];
      r
  }

  lemma EscapeUnfold(s: string)
    requires s != []
    ensures multiset(EscapeBackticks(s)) == multiset(EscapeChar(s[0])) + multiset(EscapeBackticks(s[1..]))
    ensures multiset(s) == multiset{s[0]} + multiset(s[1..])
  {
    assert EscapeBackticks(s) == EscapeChar(s[0]) + EscapeBackticks(s[1..]);
    assert s == [s[0]] + s[1..];
  }

  /** The output holds the input's characters plus one backslash per backtick. */
  lemma {:induction false} EscapeMultiset(s: string)
    ensures forall c :: (multiset(EscapeBackticks(s))[c] ==
      if c == Backslash then multiset(s)[Backslash] + multiset(s)[Backtick] else multiset(s)[c])
  {
    if s != [] {
      EscapeMultiset(s[1..]);
      EscapeUnfold(s);
    }
  }

  /** The output is longer by the number of backticks; without backticks it is the input. */
  lemma EscapeLength(s: string)
    ensures |EscapeBackticks(s)| == |s| + multiset(s)[Backtick]
    ensures Backtick !in s ==> EscapeBackticks(s) == s
  {
    EscapeLengthByCount(s);
    if Backtick !in s {
      NoBacktickUnchanged(s);
    }
  }

  lemma {:induction false} EscapeLengthByCount(s: string)
    ensures |EscapeBackticks(s)| == |s| + multiset(s)[Backtick]
  {
    if s != [] {
      EscapeLengthByCount(s[1..]);
      assert EscapeBackticks(s) == EscapeChar(s[0]) + EscapeBackticks(s[1..]);
      assert s == [s[0]] + s[1..];
      assert multiset(s)[Backtick] == multiset{s[0]}[Backtick] + multiset(s[1..])[Backtick];
    }
  }

  lemma {:induction false} NoBacktickUnchanged(s: string)
    requires Backtick !in s
    ensures EscapeBackticks(s) == s
  {
    if s != [] {
      assert s[0] in s;
      assert forall c :: c in s[1..] ==> c in s;
      NoBacktickUnchanged(s[1..]);
      assert s == [s[0]] + s[1..];
    }
  }

  /** Deleting the backslash in front of each backtick. */
  function Unescape(r: string): string
  {
    if r == [] then []
    else if |r| >= 2 && r[0] == Backslash && r[1] == Backtick then [Backtick] + Unescape(r[2..])
    else [r[0]] + Unescape(r[1..])
  }

  /** Deleting the inserted backslashes gives the model name back. */
  lemma {:induction false} UnescapeEscape(s: string)
    ensures Unescape(EscapeBackticks(s)) == s
  {
    if s != [] {
      var rest := EscapeBackticks(s[1..]);
      UnescapeEscape(s[1..]);
      var r := EscapeBackticks(s);
      assert r == EscapeChar(s[0]) + rest;
      if s[0] == Backtick {
        assert r[2..] == rest;
      } else {
        assert r[1..] == rest;
      }
      assert s == [s[0]] + s[1..];
    }
  }

  /** A template with one `${model}` slot: the text before it and the text after it. */
  datatype Template = Template(head: string, tail: string)
  {
    function Fill(model: string): (r: string)
      ensures |r| == |head| + |model| + |tail|
      ensures r[..|head|] == head && r[|head|..|head| + |model|] == model && r[|head| + |model|..] == tail
    {
      head + model + tail
    }
  }

  const ResponsesStreaming: Template := Template(
    @"import { OpenAI } from ""openai"";

const client = new OpenAI({
  baseURL: ""https://router.huggingface.co/v1"",
  apiKey: process.env.HF_TOKEN,
});

const stream = await client.responses.stream({
  model: """,
    @""",
  input: ""Explain streaming.""
});

for await (const event of stream) {
  if (event.type === ""response.output_text.delta"") {
    process.stdout.write(event.delta);
  }
}")

  const ResponsesStructured: Template := Template(
    @"// reuse the same client config as above
const result = await client.responses.create({
  model: """,
    @""",
  input: ""Summarize the talk for PMs."",
  text: {
    format: {
      type: ""json_schema"",
      name: ""summary"",
      schema: {
        type: ""object"",
        additionalProperties: false,
        properties: {
          headline: { type: ""string"" },
          audience: { type: ""string"" },
          takeaways: { type: ""array"", items: { type: ""string"" }, minItems: 2, maxItems: 4 },
        },
        required: [""headline"", ""audience"", ""takeaways""],
      },
    },
  },
  temperature: 0.2,
});

console.log(JSON.parse(result.output_text));")

  const ChatStreaming: Template := Template(
    @"import { OpenAI } from ""openai"";

const client = new OpenAI({
  baseURL: ""https://router.huggingface.co/v1"",
  apiKey: process.env.HF_TOKEN,
});

const stream = await client.chat.completions.create({
  model: """,
    @""",
  messages: [{ role: ""user"", content: ""Explain streaming."" }],
  stream: true,
});

for await (const chunk of stream) {
  process.stdout.write(chunk.choices[0]?.delta?.content ?? """");
}")

  const ChatStructured: Template := Template(
    @"// reuse the same client config as above
const result = await client.chat.completions.create({
  model: """,
    @""",
  messages: [
    { role: ""system"", content: ""Return JSON only."" },
    { role: ""user"", content: ""Summarize the talk for PMs."" },
  ],
  response_format: {
    type: ""json_schema"",
    json_schema: {
      name: ""summary"",
      schema: {
        type: ""object"",
        properties: {
          headline: { type: ""string"" },
          takeaways: { type: ""array"", items: { type: ""string"" }, minItems: 2 },
        },
        required: [""headline"", ""takeaways""],
      },
      strict: true,
    },
  },
});

console.log(JSON.parse(result.choices[0].message?.content ?? ""{}""));")

  /** The pair of snippets for one API surface. */
  datatype Snippets = Snippets(streaming: string, structured: string)

  function StreamingTemplate(mode: ApiMode): Template
  {
    if mode == Responses then ResponsesStreaming else ChatStreaming
  }

  function StructuredTemplate(mode: ApiMode): Template
  {
    if mode == Responses then ResponsesStructured else ChatStructured
  }

  /** `escapedModel || model`, where `escapedModel` escapes the model only when it is not blank. */
  function ModelSlot(model: string): (slot: string)
    ensures !IsBlank(model) ==> slot == EscapeBackticks(model)
    ensures IsBlank(model) ==> slot == model
  {
    var escapedModel := EscapeBackticks(if !IsBlank(model) then model else "");
    if escapedModel != "" then escapedModel else model
  }

  /**
   * Both branches amount to escaping: a blank name holds only white space, so
   * it has no backtick to escape. A non-blank name is escaped but not trimmed.
   */
  lemma SlotIsEscaped(model: string)
    ensures ModelSlot(model) == EscapeBackticks(model)
    ensures Unescape(ModelSlot(model)) == model
  {
    if IsBlank(model) {
      BlankIffAllSpace(model);
      NoBacktickUnchanged(model);
    }
    UnescapeEscape(model);
  }

  /**
   * `buildSnippets(mode, model)`: the templates of `mode`, both filled with the
   * same slot text.
   */
  function BuildSnippets(mode: ApiMode, model: string): (r: Snippets)
    ensures r.streaming == StreamingTemplate(mode).Fill(ModelSlot(model))
    ensures r.structured == StructuredTemplate(mode).Fill(ModelSlot(model))
  {
    var slot := ModelSlot(model);
    Snippets(StreamingTemplate(mode).Fill(slot), StructuredTemplate(mode).Fill(slot))
  }

  /**
   * Reading the model back out of either snippet: the text between the
   * template's head and tail, unescaped, is the model name as given.
   */
  lemma ModelReadBack(mode: ApiMode, model: string)
    ensures var r := BuildSnippets(mode, model);
      var t := StreamingTemplate(mode);
      var u := StructuredTemplate(mode);
      && Unescape(r.streaming[|t.head|..|r.streaming| - |t.tail|]) == model
      && Unescape(r.structured[|u.head|..|r.structured| - |u.tail|]) == model
      && r.streaming[|t.head|..|r.streaming| - |t.tail|] == r.structured[|u.head|..|r.structured| - |u.tail|]
  {
    SlotIsEscaped(model);
  }
}
