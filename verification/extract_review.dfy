/**
 * The review step of location extraction, `worker/tasks/locations/extract/review.py`: the
 * article text is cut into chunks of words, each chunk goes to the Azure entity recogniser,
 * the `Location` entities found are deduplicated by text, and an LLM reviews the locations
 * already extracted with the recogniser's list as a hint.
 *
 * The recogniser is the parameter `recognize` (`None` when the call raised); whether its
 * endpoint and key are configured is the flag `configured`. The LLM is the parameter
 * `complete` (its raw reply text), `json.loads` is `parse`, and `str()` of a JSON value is
 * `show`. The three prompt files are read by the caller: a missing file is `None`.
 */
module ExtractReview {
  import opened Wrappers
  import opened PyJson
  import opened PyText
  import opened Seqs
  import LlmJson

  // ---------------------------------------------------------------- the recogniser

  /** An entity as the recogniser reports it. */
  datatype Entity = Entity(text: string, category: string, confidence: real, offset: int)

  /** The record `extract_locations` keeps for a `Location` entity. */
  datatype NerHit = NerHit(text: string, confidence: real, offset: int)

  function HitOf(e: Entity): NerHit {
    NerHit(e.text, e.confidence, e.offset)
  }

  /** The `Location` entities of a response, as hits, in the order the recogniser gave them. */
  function LocationHits(es: seq<Entity>): (r: seq<NerHit>)
    ensures |r| <= |es|
    decreases |es|
  {
    if es == [] then []
    else
      var init := LocationHits(es[..|es| - 1]);
      var e := es[|es| - 1];
      if e.category == "Location" then init + [HitOf(e)] else init
  }

  /** `extract_locations`: nothing without an endpoint and key or when the call raised. */
  function ExtractLocations(configured: bool, response: Option<seq<Entity>>): (r: seq<NerHit>)
    ensures !configured || response.None? ==> r == []
    ensures response.Some? ==> |r| <= |response.value|
  {
    if !configured then []
    else
      match response
      case None => []
      case Some(es) => LocationHits(es)
  }

  /**
   * The filter keeps exactly the `Location` entities: each hit comes from one, each one
   * gives a hit, and filtering a concatenation concatenates the filtered parts, so the
   * order of the response is kept.
   */
  lemma {:induction false} LocationHitsSpec(es: seq<Entity>)
    ensures forall h :: h in LocationHits(es) <==> exists e :: e in es && e.category == "Location" && HitOf(e) == h
    ensures |LocationHits(es)| <= |es|
    decreases |es|
  {
    if es != [] {
      var init := es[..|es| - 1];
      LocationHitsSpec(init);
      assert es == init + [es[|es| - 1]];
    }
  }

  lemma {:induction false} LocationHitsAppend(a: seq<Entity>, b: seq<Entity>)
    ensures LocationHits(a + b) == LocationHits(a) + LocationHits(b)
    decreases |b|
  {
    if b == [] {
      assert a + b == a;
    } else {
      var b', last := b[..|b| - 1], b[|b| - 1];
      LocationHitsAppend(a, b');
      var ab := a + b;
      assert ab[..|ab| - 1] == a + b' && ab[|ab| - 1] == last;
      var tail := if last.category == "Location" then [HitOf(last)] else [];
      assert LocationHits(ab) == LocationHits(a + b') + tail;
      assert LocationHits(b) == LocationHits(b') + tail;
      assert LocationHits(a) + LocationHits(b') + tail == LocationHits(a) + (LocationHits(b') + tail);
    }
  }

  /** Without an endpoint and key, or when the call raises, there are no hits. */
  lemma ExtractLocationsEmpty(configured: bool, response: Option<seq<Entity>>)
    requires !configured || response.None?
    ensures ExtractLocations(configured, response) == []
  {
  }

  // ---------------------------------------------------------------- chunks of words

  function Min(a: int, b: int): int {
    if a <= b then a else b
  }

  /** The words cut into consecutive groups of `k`, the last one possibly shorter. */
  function Groups(ws: seq<string>, k: nat): seq<seq<string>>
    requires k > 0
    decreases |ws|
  {
    if ws == [] then []
    else
      var n := Min(k, |ws|);
      [ws[..n]] + Groups(ws[n..], k)
  }

  /** Each group joined by single spaces. */
  function JoinEach(gs: seq<seq<string>>): (cs: seq<string>)
    ensures |cs| == |gs|
  {
    seq(|gs|, i requires 0 <= i < |gs| => Join(gs[i], " "))
  }

  /** The chunks `split_into_chunks` builds from the words of a text. */
  function Chunks(ws: seq<string>, k: nat): seq<string>
    requires k > 0
  {
    JoinEach(Groups(ws, k))
  }

  /** `split_into_chunks`: a step of 0 makes `range` raise ValueError. */
  method SplitIntoChunks(text: string, k: nat) returns (r: Result<seq<string>>)
    ensures k == 0 ==> r == Err(ValueError)
    ensures k > 0 ==> r == Ok(Chunks(SplitWords(text), k))
  {
    var words := SplitWords(text);
    if k == 0 {
      return Err(ValueError);
    }
    var chunks: seq<string> := [];
    ghost var done: seq<seq<string>> := [];
    var i := 0;
    while i < |words|
      invariant 0 <= i
      invariant Groups(words, k) == done + Groups(words[Min(i, |words|)..], k)
      invariant chunks == JoinEach(done)
      decreases |words| - i
    {
      assert Min(i, |words|) == i;
      ghost var next := Min(i + k, |words|);
      var group := words[i..Min(i + k, |words|)];
      GroupsStep(words, i, k);
      ghost var later := Groups(words[next..], k);
      assert Groups(words, k) == done + ([group] + later);
      assert done + ([group] + later) == (done + [group]) + later;
      JoinEachAppend(done, group);
      chunks := chunks + [Join(group, " ")];
      done := done + [group];
      i := i + k;
      assert Min(i, |words|) == next;
    }
    assert words[Min(i, |words|)..] == [];
    assert done + [] == done;
    return Ok(chunks);
  }

  /** The groups from word `i` on: the next `k` words (or fewer, at the end), then the groups after them. */
  lemma GroupsStep(words: seq<string>, i: nat, k: nat)
    requires k > 0 && i < |words|
    ensures Groups(words[i..], k) == [words[i..Min(i + k, |words|)]] + Groups(words[Min(i + k, |words|)..], k)
  {
    var rest := words[i..];
    var n := Min(k, |rest|);
    assert rest[..n] == words[i..Min(i + k, |words|)];
    assert rest[n..] == words[Min(i + k, |words|)..];
  }

  lemma JoinEachAppend(gs: seq<seq<string>>, g: seq<string>)
    ensures JoinEach(gs + [g]) == JoinEach(gs) + [Join(g, " ")]
  {
  }

  /** All the words of a list of groups, in order. */
  function Flatten(gs: seq<seq<string>>): seq<string> {
    if gs == [] then [] else gs[0] + Flatten(gs[1..])
  }

  /** There are ⌈n/k⌉ groups: `k` times their number is at least `n`, and one group fewer would not do. */
  lemma {:induction false} GroupsCount(ws: seq<string>, k: nat)
    requires k > 0
    ensures var g := |Groups(ws, k)|; (g - 1) * k < |ws| <= g * k
    decreases |ws|
  {
    if ws != [] {
      var n := Min(k, |ws|);
      GroupsCount(ws[n..], k);
      var g' := |Groups(ws[n..], k)|;
      assert |Groups(ws, k)| == g' + 1;
      assert (g' + 1) * k == g' * k + k;
      assert g' * k == (g' - 1) * k + k;
    }
  }

  /** Every group but the last has `k` words; the last has between 1 and `k`. */
  predicate SizedGroups(gs: seq<seq<string>>, k: nat) {
    forall j :: 0 <= j < |gs| ==> 1 <= |gs[j]| <= k && (j < |gs| - 1 ==> |gs[j]| == k)
  }

  lemma {:induction false} GroupsSizes(ws: seq<string>, k: nat)
    requires k > 0
    ensures SizedGroups(Groups(ws, k), k)
    decreases |ws|
  {
    if ws != [] {
      var n := Min(k, |ws|);
      GroupsSizes(ws[n..], k);
      var gs := Groups(ws, k);
      var rest := Groups(ws[n..], k);
      assert gs == [ws[..n]] + rest;
      assert rest != [] ==> n == k;
      forall j | 0 <= j < |gs| ensures 1 <= |gs[j]| <= k && (j < |gs| - 1 ==> |gs[j]| == k) {
        if j > 0 {
          assert gs[j] == rest[j - 1];
        }
      }
    }
  }

  /** The groups, put back together, are the words. */
  lemma {:induction false} GroupsFlatten(ws: seq<string>, k: nat)
    requires k > 0
    ensures Flatten(Groups(ws, k)) == ws
    decreases |ws|
  {
    if ws != [] {
      var n := Min(k, |ws|);
      GroupsFlatten(ws[n..], k);
      var gs := Groups(ws, k);
      assert gs[0] == ws[..n] && gs[1..] == Groups(ws[n..], k);
      assert ws[..n] + ws[n..] == ws;
    }
  }

  /** Every word of a group is a word of the text. */
  lemma {:induction false} GroupsWords(ws: seq<string>, k: nat)
    requires k > 0
    requires forall i :: 0 <= i < |ws| ==> IsWord(ws[i])
    ensures forall j, i :: 0 <= j < |Groups(ws, k)| && 0 <= i < |Groups(ws, k)[j]| ==> IsWord(Groups(ws, k)[j][i])
    decreases |ws|
  {
    if ws != [] {
      var n := Min(k, |ws|);
      assert forall i :: 0 <= i < |ws[n..]| ==> ws[n..][i] == ws[n + i];
      GroupsWords(ws[n..], k);
      var gs := Groups(ws, k);
      var rest := Groups(ws[n..], k);
      assert gs == [ws[..n]] + rest;
      forall j, i | 0 <= j < |gs| && 0 <= i < |gs[j]| ensures IsWord(gs[j][i]) {
        if j == 0 {
          assert gs[j][i] == ws[i];
        } else {
          assert gs[j] == rest[j - 1];
        }
      }
    }
  }

  /**
   * Splitting each chunk gives its group of words back, so splitting the chunks one after
   * the other and concatenating the results gives the words of the text; there are ⌈n/k⌉
   * chunks for `n` words.
   */
  lemma ChunksSpec(text: string, k: nat)
    requires k > 0
    ensures var ws := SplitWords(text);
      var cs := Chunks(ws, k);
      (|cs| - 1) * k < |ws| <= |cs| * k &&
      (forall j :: 0 <= j < |cs| ==> SplitWords(cs[j]) == Groups(ws, k)[j]) &&
      Flatten(seq(|cs|, j requires 0 <= j < |cs| => SplitWords(cs[j]))) == ws
  {
    var ws := SplitWords(text);
    var gs := Groups(ws, k);
    var cs := Chunks(ws, k);
    GroupsCount(ws, k);
    GroupsWords(ws, k);
    forall j | 0 <= j < |cs| ensures SplitWords(cs[j]) == gs[j] {
      SplitJoin(gs[j]);
    }
    assert seq(|cs|, j requires 0 <= j < |cs| => SplitWords(cs[j])) == gs;
    GroupsFlatten(ws, k);
  }

  /** A text of nothing but whitespace has no chunks. */
  lemma ChunksOfBlank(text: string, k: nat)
    requires k > 0 && AllSpace(text)
    ensures Chunks(SplitWords(text), k) == []
  {
    SplitWordsAllSpace(text);
  }

  // ---------------------------------------------------------------- first-seen deduplication

  /** The texts of a list of hits. */
  function Texts(hs: seq<NerHit>): (ts: seq<string>)
    ensures |ts| == |hs|
  {
    seq(|hs|, i requires 0 <= i < |hs| => hs[i].text)
  }

  /** The hit texts of every chunk, chunk after chunk. */
  function AllTexts(chunks: seq<string>, configured: bool, recognize: string -> Option<seq<Entity>>): (r: seq<string>)
    ensures !configured ==> r == []
    decreases |chunks|
  {
    if chunks == [] then []
    else
      var n := |chunks| - 1;
      AllTexts(chunks[..n], configured, recognize) + Texts(ExtractLocations(configured, recognize(chunks[n])))
  }

  /** Each text once, at the place it first appears. */
  function Dedup(xs: seq<string>): (r: seq<string>)
    ensures |r| <= |xs|
    decreases |xs|
  {
    if xs == [] then []
    else
      var init := xs[..|xs| - 1];
      var x := xs[|xs| - 1];
      if x in init then Dedup(init) else Dedup(init) + [x]
  }

  lemma FirstIndexPrefix(xs: seq<string>, y: string, x: string)
    requires x in xs
    ensures FirstIndex(xs + [y], x) == FirstIndex(xs, x)
  {
    var i := FirstIndex(xs, x);
    var zs := xs + [y];
    assert zs[i] == x;
    assert forall j :: 0 <= j < i ==> zs[j] == xs[j];
  }

  /**
   * The deduplicated list holds every text once and no other text, and it lists them in
   * the order of their first appearance.
   */
  lemma {:induction false} DedupSpec(xs: seq<string>)
    ensures var r := Dedup(xs);
      NoDup(r) && (forall x :: x in r <==> x in xs) &&
      (forall i, j :: 0 <= i < j < |r| ==> FirstIndex(xs, r[i]) < FirstIndex(xs, r[j]))
    decreases |xs|
  {
    if xs != [] {
      var init := xs[..|xs| - 1];
      var x := xs[|xs| - 1];
      assert xs == init + [x];
      DedupSpec(init);
      var d := Dedup(init);
      forall y | y in init ensures FirstIndex(xs, y) == FirstIndex(init, y) {
        FirstIndexPrefix(init, x, y);
      }
      if x !in init {
        var r := d + [x];
        assert FirstIndex(xs, x) == |init|;
        forall i, j | 0 <= i < j < |r| ensures FirstIndex(xs, r[i]) < FirstIndex(xs, r[j]) {
          if j == |d| {
            assert r[i] == d[i] && r[i] in init;
          } else {
            assert r[i] == d[i] && r[j] == d[j];
          }
        }
        assert NoDup(r) by {
          forall i, j | 0 <= i < j < |r| ensures r[i] != r[j] {
            if j == |d| {
              assert r[i] in d;
            } else {
              assert r[i] == d[i] && r[j] == d[j];
            }
          }
        }
      }
    }
  }

  /** The locations `process_text_ner` returns for a text. */
  function NerLocations(text: string, configured: bool, recognize: string -> Option<seq<Entity>>): (r: seq<string>)
    ensures !configured ==> r == []
    ensures |r| <= |AllTexts(Chunks(SplitWords(text), 100), configured, recognize)|
  {
    Dedup(AllTexts(Chunks(SplitWords(text), 100), configured, recognize))
  }

  /** `process_text_ner`: chunks of 100 words, hits of each, the first hit of each text kept. */
  method ProcessTextNer(text: string, configured: bool, recognize: string -> Option<seq<Entity>>)
    returns (r: seq<string>)
    ensures r == NerLocations(text, configured, recognize)
  {
    var split := SplitIntoChunks(text, 100);
    var chunks := split.value;
    var found: seq<NerHit> := [];
    var seen: set<string> := {};
    var c := 0;
    while c < |chunks|
      invariant 0 <= c <= |chunks|
      invariant Texts(found) == Dedup(AllTexts(chunks[..c], configured, recognize))
      invariant forall x :: x in seen <==> x in AllTexts(chunks[..c], configured, recognize)
    {
      var hits := ExtractLocations(configured, recognize(chunks[c]));
      AllTextsStep(chunks, c, configured, recognize);
      found, seen := AddUnseen(found, seen, hits, AllTexts(chunks[..c], configured, recognize));
      c := c + 1;
    }
    assert chunks[..|chunks|] == chunks;
    r := Texts(found);
  }

  lemma AllTextsStep(chunks: seq<string>, c: nat, configured: bool, recognize: string -> Option<seq<Entity>>)
    requires c < |chunks|
    ensures AllTexts(chunks[..c + 1], configured, recognize)
      == AllTexts(chunks[..c], configured, recognize) + Texts(ExtractLocations(configured, recognize(chunks[c])))
  {
    assert chunks[..c + 1][..c] == chunks[..c];
  }

  /** The inner loop of `process_text_ner`: the hits of one chunk whose text was not seen yet are kept. */
  method AddUnseen(found0: seq<NerHit>, seen0: set<string>, hits: seq<NerHit>, ghost before: seq<string>)
    returns (found: seq<NerHit>, seen: set<string>)
    requires Texts(found0) == Dedup(before)
    requires forall x :: x in seen0 <==> x in before
    ensures Texts(found) == Dedup(before + Texts(hits))
    ensures forall x :: x in seen <==> x in before + Texts(hits)
  {
    found, seen := found0, seen0;
    var j := 0;
    assert before + Texts(hits[..0]) == before;
    while j < |hits|
      invariant 0 <= j <= |hits|
      invariant Texts(found) == Dedup(before + Texts(hits[..j]))
      invariant forall x :: x in seen <==> x in before + Texts(hits[..j])
    {
      ghost var prefix := before + Texts(hits[..j]);
      var t := hits[j].text;
      assert before + Texts(hits[..j + 1]) == prefix + [t];
      assert forall x :: x in prefix + [t] <==> x in prefix || x == t;
      assert t in seen <==> t in prefix;
      DedupStep(prefix, t);
      if t !in seen {
        ghost var kept := found;
        seen := seen + {t};
        found := found + [hits[j]];
        assert Texts(found) == Texts(kept) + [t];
      }
      j := j + 1;
    }
    assert hits[..|hits|] == hits;
  }

  /** One more text: appended when new, ignored when already seen. */
  lemma DedupStep(prefix: seq<string>, x: string)
    ensures x in prefix ==> Dedup(prefix + [x]) == Dedup(prefix)
    ensures x !in prefix ==> Dedup(prefix + [x]) == Dedup(prefix) + [x]
  {
    assert (prefix + [x])[..|prefix|] == prefix;
  }

  /** A text in the combined list was found in some chunk. */
  lemma {:induction false} AllTextsFrom(chunks: seq<string>, configured: bool, recognize: string -> Option<seq<Entity>>, x: string)
    requires x in AllTexts(chunks, configured, recognize)
    ensures exists c :: 0 <= c < |chunks| && x in Texts(ExtractLocations(configured, recognize(chunks[c])))
    decreases |chunks|
  {
    var n := |chunks| - 1;
    var init := chunks[..n];
    if x !in Texts(ExtractLocations(configured, recognize(chunks[n]))) {
      AllTextsFrom(init, configured, recognize, x);
      var c :| 0 <= c < |init| && x in Texts(ExtractLocations(configured, recognize(init[c])));
      assert init[c] == chunks[c];
    }
  }

  /**
   * `process_text_ner` returns each text once, in the order of first appearance over the
   * chunks taken in order, and only texts the recogniser reported for one of the chunks.
   */
  lemma NerLocationsSpec(text: string, configured: bool, recognize: string -> Option<seq<Entity>>)
    ensures var chunks := Chunks(SplitWords(text), 100);
      var all := AllTexts(chunks, configured, recognize);
      var r := NerLocations(text, configured, recognize);
      NoDup(r) && (forall x :: x in r <==> x in all) &&
      (forall i, j :: 0 <= i < j < |r| ==> FirstIndex(all, r[i]) < FirstIndex(all, r[j])) &&
      (forall x :: x in r ==> exists c :: 0 <= c < |chunks| && x in Texts(ExtractLocations(configured, recognize(chunks[c]))))
  {
    var chunks := Chunks(SplitWords(text), 100);
    var all := AllTexts(chunks, configured, recognize);
    DedupSpec(all);
    forall x | x in NerLocations(text, configured, recognize)
      ensures exists c :: 0 <= c < |chunks| && x in Texts(ExtractLocations(configured, recognize(chunks[c])))
    {
      AllTextsFrom(chunks, configured, recognize, x);
    }
  }

  // ---------------------------------------------------------------- the review

  /** The contents of the three prompt files; `None` for one that cannot be opened. */
  datatype PromptFiles = PromptFiles(base: Option<string>, format: Option<string>, output: Option<string>)

  const Trailer: string := "\n\nIf you add anything to the list of locations, add an attribute to the location called 'notes' and set it to 'Added by extraction reviewer'"

  /** The system prompt up to and including the locations already extracted. */
  function PromptHead(base: string, format: string, text: string, llmLocations: string): string {
    base + "\n\n    New locations should be formatted according to the following rules:\n\n    " + format
    + "\n\n\n\n    The article text is:\n\n    " + text
    + "\n\n    The locations extracted from the LLM are:\n\n    " + llmLocations + "\n    "
  }

  /** The line that shows the recogniser's locations to the LLM. */
  function NerLine(ner: seq<string>, show: Json -> string): string {
    "\n\nThe locations extracted from the NER service are: " + show(JArr(seq(|ner|, i requires 0 <= i < |ner| => JStr(ner[i])))) + "\n\n"
  }

  /** The system prompt of the review. */
  function ReviewPrompt(head: string, ner: seq<string>, output: string, show: Json -> string): string {
    (if ner != [] then head + NerLine(ner, show) else head) + output + Trailer
  }

  /**
   * The recogniser's line is in the prompt exactly when it found something: with no
   * locations the prompt is the head, the output prompt and the trailer; with some, the
   * line sits between the head and the output prompt.
   */
  lemma ReviewPromptNerLine(head: string, ner: seq<string>, output: string, show: Json -> string)
    ensures ner == [] ==> ReviewPrompt(head, ner, output, show) == head + output + Trailer
    ensures ner != [] ==> ReviewPrompt(head, ner, output, show) == head + NerLine(ner, show) + output + Trailer
    ensures ner != [] ==> |ReviewPrompt(head, ner, output, show)| == |ReviewPrompt(head, [], output, show)| + |NerLine(ner, show)|
  {
  }

  /** The user prompt is the article text with every newline turned into a space. */
  lemma {:induction false} NoNewlineLeft(s: string)
    ensures '\n' !in ReplaceAll(s, "\n", " ")
    decreases |s|
  {
    if s != [] {
      NoNewlineLeft(s[1..]);
      if s[..1] == "\n" {
        assert ReplaceAll(s, "\n", " ") == " " + ReplaceAll(s[1..], "\n", " ");
      } else {
        assert s[0] != '\n';
        assert ReplaceAll(s, "\n", " ") == [s[0]] + ReplaceAll(s[1..], "\n", " ");
      }
    }
  }

  /** The system prompt of the review, from the three prompt files, the text and both lists of locations. */
  function SystemPrompt(files: PromptFiles, text: string, llmLocations: Json, ner: seq<string>, show: Json -> string): string
    requires files.base.Some? && files.format.Some? && files.output.Some?
  {
    var head := PromptHead(files.base.value, files.format.value, text, Str(llmLocations, show));
    ReviewPrompt(head, ner, files.output.value, show)
  }

  /** The user prompt: the text on one line. */
  function UserPrompt(text: string): (u: string)
    ensures '\n' !in u
  {
    NoNewlineLeft(text);
    ReplaceAll(text, "\n", " ")
  }

  /** The payload once the reviewed locations are in: `url` and `output_filename` are written back. */
  function Updated(payload: Record, locations: Json): Record {
    payload["locations" := locations]["url" := Get(payload, "url", JNull)]["output_filename" := Get(payload, "output_filename", JNull)]
  }

  /**
   * The update sets `locations`, keeps `url` and `output_filename` (adding them as `None`
   * when absent) and leaves every other key as it was.
   */
  lemma UpdatedFields(payload: Record, locations: Json)
    ensures var u := Updated(payload, locations);
      u.Keys == payload.Keys + {"locations", "url", "output_filename"} &&
      u["locations"] == locations &&
      u["url"] == Get(payload, "url", JNull) &&
      u["output_filename"] == Get(payload, "output_filename", JNull) &&
      (forall k :: k in payload && k != "locations" && k != "url" && k != "output_filename" ==> u[k] == payload[k])
  {
  }

  /** The last lines of the review: the reply's `locations` go into the payload. */
  function Reviewed(payload: Record, reply: Result<Json>): Result<Record> {
    var j :- reply;
    var locations :- GetFrom(j, "locations", JNull);
    Ok(Updated(payload, locations))
  }

  /**
   * A failed LLM call raises out of the review; a reply that is not a JSON object raises
   * AttributeError; otherwise the reply's `locations` (or `None`) go into the payload.
   */
  lemma ReviewedSpec(payload: Record, reply: Result<Json>)
    ensures reply.Err? ==> Reviewed(payload, reply) == Err(reply.fault)
    ensures reply.Ok? && !reply.value.JObj? ==> Reviewed(payload, reply) == Err(AttributeError)
    ensures reply.Ok? && reply.value.JObj? ==>
      Reviewed(payload, reply) == Ok(Updated(payload, Get(reply.value.fields, "locations", JNull)))
  {
  }

  /**
   * `_extract_locations_review` on a payload: no text, nothing to do; then the three prompt
   * files are read, the recogniser's locations gathered and the LLM asked.
   */
  function ReviewPayload(
    payload: Record, files: PromptFiles, configured: bool, recognize: string -> Option<seq<Entity>>,
    complete: (string, string) -> Option<string>, parse: string -> Option<Json>, show: Json -> string): (r: Result<Record>)
    ensures !Truthy(Get(payload, "text", JNull)) ==> r == Ok(payload)
    ensures Truthy(Get(payload, "text", JNull)) && (files.base.None? || files.format.None? || files.output.None?) ==>
      r == Err(PromptMissing)
    ensures (Truthy(Get(payload, "text", JNull)) && files.base.Some? && files.format.Some? && files.output.Some? &&
      !Get(payload, "text", JNull).JStr?) ==> r == Err(AttributeError)
  {
    var text := Get(payload, "text", JNull);
    if !Truthy(text) then Ok(payload)
    else if files.base.None? || files.format.None? || files.output.None? then Err(PromptMissing)
    else if !text.JStr? then Err(AttributeError)
    else Reviewed(payload, ReviewReply(payload, files, text.s, configured, recognize, complete, parse, show))
  }

  /** The LLM's parsed reply to the review prompts built from a payload whose text is `text`. */
  function ReviewReply(
    payload: Record, files: PromptFiles, text: string, configured: bool, recognize: string -> Option<seq<Entity>>,
    complete: (string, string) -> Option<string>, parse: string -> Option<Json>, show: Json -> string): Result<Json>
    requires files.base.Some? && files.format.Some? && files.output.Some?
  {
    var ner := NerLocations(text, configured, recognize);
    var prompt := SystemPrompt(files, text, Get(payload, "locations", JArr([])), ner, show);
    LlmJson.GetJson(complete(prompt, UserPrompt(text)), parse)
  }

  /** `_extract_locations_review`, with the recogniser loop run as a method. */
  method ExtractLocationsReview(
    payload: Record, files: PromptFiles, configured: bool, recognize: string -> Option<seq<Entity>>,
    complete: (string, string) -> Option<string>, parse: string -> Option<Json>, show: Json -> string)
    returns (r: Result<Record>)
    ensures r == ReviewPayload(payload, files, configured, recognize, complete, parse, show)
  {
    var text := Get(payload, "text", JNull);
    if !Truthy(text) {
      return Ok(payload);
    }
    if files.base.None? || files.format.None? || files.output.None? {
      return Err(PromptMissing);
    }
    if !text.JStr? {
      return Err(AttributeError);
    }
    var llmLocations := Get(payload, "locations", JArr([]));
    var ner := ProcessTextNer(text.s, configured, recognize);
    var prompt := SystemPrompt(files, text.s, llmLocations, ner, show);
    r := Reviewed(payload, LlmJson.GetJson(complete(prompt, UserPrompt(text.s)), parse));
  }

  /**
   * Without text the payload comes back as it is; with text, a missing prompt file raises
   * before anything else, and a text that is not a string raises AttributeError.
   */
  lemma ReviewGuards(
    payload: Record, files: PromptFiles, configured: bool, recognize: string -> Option<seq<Entity>>,
    complete: (string, string) -> Option<string>, parse: string -> Option<Json>, show: Json -> string)
    ensures !Truthy(Get(payload, "text", JNull)) ==>
      ReviewPayload(payload, files, configured, recognize, complete, parse, show) == Ok(payload)
    ensures Truthy(Get(payload, "text", JNull)) && (files.base.None? || files.format.None? || files.output.None?) ==>
      ReviewPayload(payload, files, configured, recognize, complete, parse, show) == Err(PromptMissing)
    ensures Truthy(Get(payload, "text", JNull)) && !payload["text"].JStr? && files.base.Some? && files.format.Some? && files.output.Some? ==>
      ReviewPayload(payload, files, configured, recognize, complete, parse, show) == Err(AttributeError)
  {
  }

  /**
   * A successful review of a payload with text is the update of the payload by the reply's
   * `locations`: with `UpdatedFields`, only `locations`, `url` and `output_filename` change.
   */
  lemma ReviewPayloadFields(
    payload: Record, files: PromptFiles, configured: bool, recognize: string -> Option<seq<Entity>>,
    complete: (string, string) -> Option<string>, parse: string -> Option<Json>, show: Json -> string)
    requires Truthy(Get(payload, "text", JNull))
    ensures var r := ReviewPayload(payload, files, configured, recognize, complete, parse, show);
      r.Ok? ==> "locations" in r.value && r.value == Updated(payload, r.value["locations"])
  {
    var r := ReviewPayload(payload, files, configured, recognize, complete, parse, show);
    if r.Ok? && files.base.Some? && files.format.Some? && files.output.Some? && payload["text"].JStr? {
      ReviewedOk(payload, ReviewReply(payload, files, payload["text"].s, configured, recognize, complete, parse, show));
    }
  }

  lemma ReviewedOk(payload: Record, reply: Result<Json>)
    requires Reviewed(payload, reply).Ok?
    ensures reply.Ok? && reply.value.JObj?
    ensures Reviewed(payload, reply).value == Updated(payload, Get(reply.value.fields, "locations", JNull))
  {
  }
}
