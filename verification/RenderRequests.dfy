/** Render requests: the payload behind a fingerprint, and the reuse of an export that was
    already made for it. SHA-256 is a parameter assumed injective. */
module RenderRequests {
  import opened Common
  import opened StableJson
  import opened StableJsonReader
  import opened StableJsonTheorems
  import P = PipelineDatabase

  datatype Caption = Caption(template: string, language: string, cues: Json, style: Json)

  datatype Composition = Composition(version: string, plan: Json)

  /** What a request depends on, after the database lookups. */
  datatype RenderInputs = RenderInputs(
    format: string, aspectRatio: string,
    clipId: string, startMs: string, endMs: string,
    caption: Option<Caption>, watermark: Json, composition: Option<Composition>, model: string,
    purpose: string, preset: string, crf: NumberToken, maxSourceShortSide: NumberToken)

  function RenderFingerprint(sha: string -> string, le: (string, string) -> bool, payload: Json): string {
    sha(StableStringify(le, payload))
  }

  function Lookup(entries: seq<Entry>, key: string): Option<Json> {
    if entries == [] then None
    else if entries[0].key == key then Some(entries[0].value)
    else Lookup(entries[1..], key)
  }

  /** `jsonRecord(plan).accelerator ?? 'legacy'` */
  function Accelerator(plan: Json): Json {
    if !plan.Obj? then Str("legacy")
    else match Lookup(plan.entries, "accelerator")
      case Some(v) => if v.Null? || v.Undefined? then Str("legacy") else v
      case None => Str("legacy")
  }

  /** The first entry of the name counts. */
  lemma {:induction false} LookupFirst(entries: seq<Entry>, key: string, i: nat)
    requires i < |entries| && entries[i].key == key && forall k | 0 <= k < i :: entries[k].key != key
    ensures Lookup(entries, key) == Some(entries[i].value)
  {
    if i > 0 { LookupFirst(entries[1..], key, i - 1); }
  }

  lemma {:induction false} LookupNone(entries: seq<Entry>, key: string)
    requires forall k | 0 <= k < |entries| :: entries[k].key != key
    ensures Lookup(entries, key) == None
  {
    if entries != [] { LookupNone(entries[1..], key); }
  }

  /** A plan names its accelerator, unless it says nothing or nothing definite. */
  lemma AcceleratorNamed(plan: Json, i: nat)
    requires plan.Obj? && i < |plan.entries| && plan.entries[i].key == "accelerator"
    requires forall k | 0 <= k < i :: plan.entries[k].key != "accelerator"
    ensures plan.entries[i].value != Null && plan.entries[i].value != Undefined ==> Accelerator(plan) == plan.entries[i].value
    ensures plan.entries[i].value == Null || plan.entries[i].value == Undefined ==> Accelerator(plan) == Str("legacy")
  {
    LookupFirst(plan.entries, "accelerator", i);
  }

  lemma AcceleratorMissing(plan: Json)
    requires plan.Obj? ==> forall k | 0 <= k < |plan.entries| :: plan.entries[k].key != "accelerator"
    ensures Accelerator(plan) == Str("legacy")
  {
    if plan.Obj? { LookupNone(plan.entries, "accelerator"); }
  }

  /** The constants of the renderer are part of every request. */
  lemma EngineConstants(r: RenderInputs)
    ensures Entry("version", Str("clip-composition-v2")) in EnginePayload(r).entries
    ensures Entry("preserveSourceQuality", Bool(true)) in EnginePayload(r).entries
  {
    var entries := EnginePayload(r).entries;
    assert entries[0] == Entry("version", Str("clip-composition-v2")) && entries[3] == Entry("preserveSourceQuality", Bool(true));
  }

  function ClipPayload(r: RenderInputs): Json {
    Obj([Entry("id", Str(r.clipId)), Entry("startMs", Str(r.startMs)), Entry("endMs", Str(r.endMs))])
  }

  function CaptionPayload(caption: Option<Caption>): Json {
    match caption
    case None => Null
    case Some(c) => Obj([Entry("template", Str(c.template)), Entry("language", Str(c.language)),
                         Entry("cues", c.cues), Entry("style", c.style)])
  }

  function CompositionPayload(sha: string -> string, le: (string, string) -> bool,
                              composition: Option<Composition>, model: string): Json {
    match composition
    case None => Null
    case Some(c) => Obj([Entry("version", Str(c.version)), Entry("accelerator", Accelerator(c.plan)),
                         Entry("planHash", Str(RenderFingerprint(sha, le, c.plan))), Entry("model", Str(model))])
  }

  function EnginePayload(r: RenderInputs): Json {
    Obj([Entry("version", Str("clip-composition-v2")), Entry("preset", Str(r.preset)), Entry("crf", Number(r.crf)),
         Entry("preserveSourceQuality", Bool(true)), Entry("maxSourceShortSide", Number(r.maxSourceShortSide))])
  }

  function Payload(sha: string -> string, le: (string, string) -> bool, r: RenderInputs): Json {
    Obj([Entry("format", Str(r.format)), Entry("aspectRatio", Str(r.aspectRatio)), Entry("clip", ClipPayload(r)),
         Entry("caption", CaptionPayload(r.caption)), Entry("watermark", r.watermark),
         Entry("composition", CompositionPayload(sha, le, r.composition, r.model)),
         Entry("purpose", Str(r.purpose)), Entry("render", EnginePayload(r))])
  }

  function Fingerprint(sha: string -> string, le: (string, string) -> bool, r: RenderInputs): string {
    RenderFingerprint(sha, le, Payload(sha, le, r))
  }

  // ----- what equal fingerprints mean

  ghost predicate Injective(sha: string -> string) {
    forall x, y :: sha(x) == sha(y) ==> x == y
  }

  /** Equal as JSON, key order aside, with `[undefined]` taken for `[]`. */
  ghost predicate Same(a: Json, b: Json) {
    SameJson(Erase(a), Erase(b))
  }

  ghost predicate SameCaption(a: Option<Caption>, b: Option<Caption>) {
    match (a, b)
    case (Some(c), Some(d)) =>
      c.template == d.template && c.language == d.language && Same(c.cues, d.cues) && Same(c.style, d.style)
    case _ => a == b
  }

  ghost predicate SameComposition(a: RenderInputs, b: RenderInputs) {
    match (a.composition, b.composition)
    case (Some(c), Some(d)) => c.version == d.version && Same(c.plan, d.plan) && a.model == b.model
    case _ => a.composition == b.composition
  }

  ghost predicate SameInputs(a: RenderInputs, b: RenderInputs) {
    && a.format == b.format && a.aspectRatio == b.aspectRatio && a.purpose == b.purpose
    && a.clipId == b.clipId && a.startMs == b.startMs && a.endMs == b.endMs
    && a.preset == b.preset && a.crf == b.crf && a.maxSourceShortSide == b.maxSourceShortSide
    && Same(a.watermark, b.watermark)
    && SameCaption(a.caption, b.caption)
    && SameComposition(a, b)
  }

  lemma {:induction false} SameField(es: seq<Entry>, fs: seq<Entry>, i: nat)
    requires |es| == |fs| && i < |es| && DistinctKeys(fs)
    requires forall k | 0 <= k < |es| :: es[k].key == fs[k].key
    requires Same(Obj(es), Obj(fs))
    ensures Same(es[i].value, fs[i].value)
  {
    var ee, ef := EraseEntries(es), EraseEntries(fs);
    assert ee[i] in ee;
    assert MatchIn(ee[i], ef);
    var f :| f in ef && SameEntry(ee[i], f);
    var j :| 0 <= j < |ef| && ef[j] == f;
    assert fs[j].key == fs[i].key;
  }

  /** Reads off every field of two equal records whose keys are the given distinct names. */
  lemma {:induction false} SameFields(keys: seq<string>, es: seq<Entry>, fs: seq<Entry>)
    requires |es| == |keys| == |fs|
    requires forall i, j | 0 <= i < j < |keys| :: keys[i] != keys[j]
    requires forall k | 0 <= k < |keys| :: es[k].key == keys[k] && fs[k].key == keys[k]
    requires Same(Obj(es), Obj(fs))
    ensures forall k | 0 <= k < |keys| :: Same(es[k].value, fs[k].value)
  {
    forall k | 0 <= k < |keys| ensures Same(es[k].value, fs[k].value) {
      SameField(es, fs, k);
    }
  }

  lemma {:induction false} SameClip(a: RenderInputs, b: RenderInputs)
    requires Same(ClipPayload(a), ClipPayload(b))
    ensures a.clipId == b.clipId && a.startMs == b.startMs && a.endMs == b.endMs
  {
    var es, fs := ClipPayload(a).entries, ClipPayload(b).entries;
    SameFields(["id", "startMs", "endMs"], es, fs);
    assert Same(es[0].value, fs[0].value) && Same(es[1].value, fs[1].value) && Same(es[2].value, fs[2].value);
  }

  lemma {:induction false} SameEngine(a: RenderInputs, b: RenderInputs)
    requires Same(EnginePayload(a), EnginePayload(b))
    ensures a.preset == b.preset && a.crf == b.crf && a.maxSourceShortSide == b.maxSourceShortSide
  {
    var es, fs := EnginePayload(a).entries, EnginePayload(b).entries;
    SameFields(["version", "preset", "crf", "preserveSourceQuality", "maxSourceShortSide"], es, fs);
    assert Same(es[1].value, fs[1].value) && Same(es[2].value, fs[2].value) && Same(es[4].value, fs[4].value);
  }

  lemma {:induction false} SameCaptionPayload(a: Option<Caption>, b: Option<Caption>)
    requires Same(CaptionPayload(a), CaptionPayload(b))
    ensures SameCaption(a, b)
  {
    if a.Some? && b.Some? {
      var es, fs := CaptionPayload(a).entries, CaptionPayload(b).entries;
      SameFields(["template", "language", "cues", "style"], es, fs);
      assert Same(es[0].value, fs[0].value) && Same(es[1].value, fs[1].value);
      assert Same(es[2].value, fs[2].value) && Same(es[3].value, fs[3].value);
    }
  }

  lemma {:induction false} SameCompositionPayload(sha: string -> string, le: (string, string) -> bool,
      a: RenderInputs, b: RenderInputs)
    requires Injective(sha)
    requires Same(CompositionPayload(sha, le, a.composition, a.model), CompositionPayload(sha, le, b.composition, b.model))
    ensures SameComposition(a, b)
  {
    if a.composition.Some? && b.composition.Some? {
      var es := CompositionPayload(sha, le, a.composition, a.model).entries;
      var fs := CompositionPayload(sha, le, b.composition, b.model).entries;
      SameFields(["version", "accelerator", "planHash", "model"], es, fs);
      assert Same(es[0].value, fs[0].value) && Same(es[2].value, fs[2].value) && Same(es[3].value, fs[3].value);
      SameTextImpliesSameJson(le, a.composition.value.plan, b.composition.value.plan);
    }
  }

  /** Equal fingerprints were made for equal requests, the hashed plan included. */
  lemma {:induction false} FingerprintDetermines(sha: string -> string, le: (string, string) -> bool,
      a: RenderInputs, b: RenderInputs)
    requires Injective(sha) && Fingerprint(sha, le, a) == Fingerprint(sha, le, b)
    ensures SameInputs(a, b)
  {
    var pa, pb := Payload(sha, le, a), Payload(sha, le, b);
    SameTextImpliesSameJson(le, pa, pb);
    SamePayload(sha, le, a, b);
    SameClip(a, b);
    SameEngine(a, b);
    SameCaptionPayload(a.caption, b.caption);
    SameCompositionPayload(sha, le, a, b);
  }

  lemma {:induction false} SamePayload(sha: string -> string, le: (string, string) -> bool, a: RenderInputs,
      b: RenderInputs)
    requires Same(Payload(sha, le, a), Payload(sha, le, b))
    ensures Same(Str(a.format), Str(b.format)) && Same(Str(a.aspectRatio), Str(b.aspectRatio))
    ensures Same(Str(a.purpose), Str(b.purpose))
    ensures Same(ClipPayload(a), ClipPayload(b)) && Same(CaptionPayload(a.caption), CaptionPayload(b.caption))
    ensures Same(a.watermark, b.watermark) && Same(EnginePayload(a), EnginePayload(b))
    ensures Same(CompositionPayload(sha, le, a.composition, a.model), CompositionPayload(sha, le, b.composition, b.model))
  {
    var es, fs := Payload(sha, le, a).entries, Payload(sha, le, b).entries;
    SameFields(["format", "aspectRatio", "clip", "caption", "watermark", "composition", "purpose", "render"], es, fs);
    assert Same(es[0].value, fs[0].value) && Same(es[1].value, fs[1].value) && Same(es[6].value, fs[6].value);
    assert Same(es[2].value, fs[2].value) && Same(es[3].value, fs[3].value) && Same(es[4].value, fs[4].value);
    assert Same(es[5].value, fs[5].value) && Same(es[7].value, fs[7].value);
  }

  // ----- the request

  datatype ExportStatus = Queued | Processing | Ready | Failed

  datatype ExportRow = ExportRow(id: nat, clipId: string, purpose: string, fingerprint: string, status: ExportStatus)

  datatype ClipStatus = Suggested | Rendering | ReviewRequired | OtherStatus

  datatype ClipRow = ClipRow(aspectRatio: string, status: ClipStatus)

  function ClipAfter(clip: ClipRow, r: RenderInputs, reused: bool): ClipRow {
    ClipRow(r.aspectRatio,
      if !reused && r.purpose == "FINAL" && clip.status != ReviewRequired then Rendering
      else if r.aspectRatio != clip.aspectRatio then Suggested else clip.status)
  }

  /** A reused export leaves the clip alone unless its aspect ratio changes; a new final one marks
      it as rendering unless it waits for a review. */
  lemma ClipMarked(clip: ClipRow, r: RenderInputs)
    ensures ClipAfter(clip, r, true).aspectRatio == ClipAfter(clip, r, false).aspectRatio == r.aspectRatio
    ensures r.aspectRatio == clip.aspectRatio ==> ClipAfter(clip, r, true) == clip
    ensures r.aspectRatio != clip.aspectRatio ==> ClipAfter(clip, r, true).status == Suggested
    ensures clip.status != ReviewRequired && r.purpose == "FINAL" ==> ClipAfter(clip, r, false).status == Rendering
    ensures clip.status == ReviewRequired || r.purpose != "FINAL" ==> ClipAfter(clip, r, false) == ClipAfter(clip, r, true)
  {
  }

  /** The exports table in creation order, the clips, and the rows of the pipeline. */
  class ClipRenderRequests {
    const sha: string -> string
    const le: (string, string) -> bool
    var exports: seq<ExportRow>
    var clips: map<string, ClipRow>
    var pipeline: P.Db
    ghost var madeFor: map<nat, RenderInputs>

    /** Every row carries the fingerprint, clip and purpose of the request it was made for. */
    ghost predicate Valid()
      reads this`exports, this`madeFor
    {
      forall i | 0 <= i < |exports| :: MadeFor(exports[i])
    }

    ghost predicate MadeFor(row: ExportRow)
      reads this`madeFor
    {
      row.id in madeFor &&
      var r := madeFor[row.id];
      row.fingerprint == Fingerprint(sha, le, r) && row.clipId == r.clipId && row.purpose == r.purpose
    }

    predicate Reusable(row: ExportRow, r: RenderInputs) {
      && row.clipId == r.clipId && row.purpose == r.purpose
      && row.fingerprint == Fingerprint(sha, le, r)
      && row.status != Failed
    }

    /** Every row of the same clip, purpose and fingerprint that has not failed can be reused, so any
        that was made for this very request. */
    lemma ReusableIff(row: ExportRow, r: RenderInputs)
      ensures Reusable(row, r) <==>
        && row.clipId == r.clipId && row.purpose == r.purpose && row.fingerprint == Fingerprint(sha, le, r)
        && row.status in {Queued, Processing, Ready}
      ensures MadeFor(row) && madeFor[row.id] == r && row.status != Failed ==> Reusable(row, r)
    {
    }

    /** The last row that can be reused for the request. */
    ghost predicate NewestReusable(rows: seq<ExportRow>, row: ExportRow, r: RenderInputs) {
      exists i | 0 <= i < |rows| ::
        rows[i] == row && Reusable(rows[i], r) && forall j | i < j < |rows| :: !Reusable(rows[j], r)
    }

    constructor (sha: string -> string, le: (string, string) -> bool, clips: map<string, ClipRow>, pipeline: P.Db)
      requires Injective(sha)
      ensures Valid() && exports == [] && this.sha == sha && this.le == le
      ensures this.clips == clips && this.pipeline == pipeline
    {
      this.clips, this.pipeline := clips, pipeline;
      this.sha := sha;
      this.le := le;
      exports := [];
      madeFor := map[];
    }

    /** The newest reusable row, if any. */
    method FindExisting(r: RenderInputs) returns (found: Option<ExportRow>)
      ensures found.None? ==> forall i | 0 <= i < |exports| :: !Reusable(exports[i], r)
      ensures found.Some? ==> exists i | 0 <= i < |exports| ::
        exports[i] == found.value && Reusable(exports[i], r) &&
        forall j | i < j < |exports| :: !Reusable(exports[j], r)
    {
      var i := |exports|;
      while i > 0
        invariant 0 <= i <= |exports|
        invariant forall j | i <= j < |exports| :: !Reusable(exports[j], r)
      {
        i := i - 1;
        if Reusable(exports[i], r) {
          return Some(exports[i]);
        }
      }
      return None;
    }

    /** A reused export was made for the same request; otherwise one new row is queued and, in
        the same transaction, a render run is started with its stage and its event. A changed
        aspect ratio is written before either, and a final render marks its clip. */
    method Request(r: RenderInputs, force: bool, regenerate: bool, freshId: nat, run: P.Id, exec: P.Id, event: P.Id)
      returns (row: ExportRow, reused: bool)
      requires Valid() && Injective(sha) && freshId !in madeFor && r.clipId in clips && P.Fresh(pipeline, run, exec, event)
      modifies this
      ensures Valid()
      ensures reused ==> exports == old(exports) && madeFor == old(madeFor) && row in exports
      ensures reused ==> !force && !regenerate && row.status != Failed && SameInputs(madeFor[row.id], r)
      ensures reused ==> NewestReusable(old(exports), row, r)
      ensures !reused ==> row == ExportRow(freshId, r.clipId, r.purpose, Fingerprint(sha, le, r), Queued)
      ensures !reused ==> exports == old(exports) + [row] && madeFor == old(madeFor)[freshId := r]
      ensures !force && !regenerate ==> (reused <==> exists e :: e in old(exports) && Reusable(e, r))
      ensures pipeline == if reused then old(pipeline)
        else P.DbStart(old(pipeline), P.ClipRenderRequested, P.Rendering, run, exec, event)
      ensures clips == old(clips)[r.clipId := ClipAfter(old(clips)[r.clipId], r, reused)]
    {
      var clip := clips[r.clipId];
      if r.aspectRatio != clip.aspectRatio {
        clips := clips[r.clipId := ClipRow(r.aspectRatio, Suggested)];
      }
      if !force && !regenerate {
        var found := FindSame(r);
        if found.Some? { return found.value, true; }
      }
      row := Start(r, clip.status, freshId, run, exec, event);
      reused := false;
    }

    /** The transaction; `status` is the clip's before the request. */
    method Start(r: RenderInputs, status: ClipStatus, freshId: nat, run: P.Id, exec: P.Id, event: P.Id) returns (row: ExportRow)
      requires Valid() && freshId !in madeFor && r.clipId in clips && P.Fresh(pipeline, run, exec, event)
      modifies this
      ensures Valid() && row == ExportRow(freshId, r.clipId, r.purpose, Fingerprint(sha, le, r), Queued)
      ensures exports == old(exports) + [row] && madeFor == old(madeFor)[freshId := r]
      ensures pipeline == P.DbStart(old(pipeline), P.ClipRenderRequested, P.Rendering, run, exec, event)
      ensures clips == if r.purpose == "FINAL" && status != ReviewRequired
        then old(clips)[r.clipId := old(clips)[r.clipId].(status := Rendering)] else old(clips)
    {
      row := ExportRow(freshId, r.clipId, r.purpose, Fingerprint(sha, le, r), Queued);
      if r.purpose == "FINAL" && status != ReviewRequired {
        clips := clips[r.clipId := clips[r.clipId].(status := Rendering)];
      }
      pipeline := P.DbStart(pipeline, P.ClipRenderRequested, P.Rendering, run, exec, event);
      AddExport(r, row);
    }

    /** A reusable row was made for the same request. */
    method FindSame(r: RenderInputs) returns (found: Option<ExportRow>)
      requires Valid() && Injective(sha)
      ensures found.Some? ==>
        && found.value in exports && found.value.status != Failed && NewestReusable(exports, found.value, r)
        && found.value.id in madeFor && SameInputs(madeFor[found.value.id], r)
      ensures found.None? ==> forall e | e in exports :: !Reusable(e, r)
    {
      found := FindExisting(r);
      if found.Some? {
        assert MadeFor(found.value);
        FingerprintDetermines(sha, le, madeFor[found.value.id], r);
      }
    }

    method AddExport(r: RenderInputs, row: ExportRow)
      requires Valid() && row.id !in madeFor
      requires row.fingerprint == Fingerprint(sha, le, r) && row.clipId == r.clipId && row.purpose == r.purpose
      modifies this`exports, this`madeFor
      ensures Valid() && exports == old(exports) + [row] && madeFor == old(madeFor)[row.id := r]
    {
      exports := exports + [row];
      madeFor := madeFor[row.id := r];
      forall e | e in old(exports) ensures MadeFor(e) {
        assert old(MadeFor(e));
      }
    }
  }
}
