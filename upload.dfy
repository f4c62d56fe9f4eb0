/**
  `upload_annotations` (cytomine_utils/_utils.py, lines 239-287): every feature of a
  GeoJSON feature collection becomes, in input order, one annotation of an image,
  an optional term link and one property per key, each saved to the remote store.

  The store is modelled as an append-only log of saved records. The geometry
  library (`Polygon(coords).buffer(0)`, `is_valid`, `.wkt`) is the parameter
  `repair`, about which nothing is assumed.
 */
module Upload {
  import opened Wrappers
  import opened Geometry
  import Images
  import Terms

  /** A scalar GeoJSON property value. */
  datatype Value = Text(s: string) | Number(n: int) | Flag(b: bool) | Null

  /** One `key: value` entry of a feature's `properties`, in the object's order. */
  datatype Entry = Entry(key: string, value: Value)

  /** A feature's `geometry`: its `type` and its flat `(x, y)` coordinate array. */
  datatype FeatureGeometry = FeatureGeometry(kind: string, coordinates: seq<Point>)

  datatype Feature = Feature(geometry: FeatureGeometry, properties: seq<Entry>)

  /** The top-level object: its `type` and its `features`. */
  datatype FeatureCollection = FeatureCollection(kind: string, features: seq<Feature>)

  /** The project the annotations go to, as `get_project` returns it. */
  datatype Project = Project(id: int, name: string)

  /** What the geometry library reports on a repaired shape: `is_valid` and `.wkt`. */
  datatype Repaired = Repaired(valid: bool, wkt: string)

  /** One record saved to the store, in the order of the `.save()` calls. */
  datatype Record =
    | AnnotationRecord(id: nat, location: string, image: int, project: int, users: seq<int>)
    | TermLinkRecord(annotation: nat, term: int)
    | PropertyRecord(annotation: nat, key: string, value: Value)

  /**
    The exceptions that end an upload early. ImageNotFound is the StopIteration of
    line 260, NotFeatureCollection and UnsupportedGeometry the AssertionErrors of
    lines 262 and 266, EmptyCoordinates the IndexError of `coords[:, 0]` on the
    one-dimensional array numpy makes of an empty coordinate list (line 269),
    NameNotText the AttributeError of `.lower()` on a value that is not a string
    (line 281), UnknownTerm the KeyError of line 193.
   */
  datatype Error =
    | ImageNotFound
    | NotFeatureCollection
    | UnsupportedGeometry
    | EmptyCoordinates
    | NameNotText
    | UnknownTerm(name: string)

  /** A log is well formed when annotation ids increase and every other record refers to an earlier annotation. */
  ghost predicate LogValid(log: seq<Record>, nextId: nat)
  {
    && (forall i :: 0 <= i < |log| && log[i].AnnotationRecord? ==> log[i].id < nextId)
    && (forall i, j :: 0 <= i < j < |log| && log[i].AnnotationRecord? && log[j].AnnotationRecord? ==> log[i].id < log[j].id)
    && (forall i :: 0 <= i < |log| && !log[i].AnnotationRecord? ==>
          exists j :: 0 <= j < i && log[j].AnnotationRecord? && log[j].id == log[i].annotation)
  }

  /** Appending a record keeps a log well formed when a new annotation takes a fresh id and any other record refers to a saved annotation. */
  lemma AppendKeepsValid(log: seq<Record>, nextId: nat, x: Record, nextId': nat)
    requires LogValid(log, nextId) && nextId <= nextId'
    requires x.AnnotationRecord? ==> nextId <= x.id < nextId'
    requires !x.AnnotationRecord? ==>
      exists j :: 0 <= j < |log| && log[j].AnnotationRecord? && log[j].id == x.annotation
    ensures LogValid(log + [x], nextId')
  {
    var l := log + [x];
    forall i | 0 <= i < |l| && !l[i].AnnotationRecord?
      ensures exists j :: 0 <= j < i && l[j].AnnotationRecord? && l[j].id == l[i].annotation
    {
      if i < |log| {
        var j :| 0 <= j < i && log[j].AnnotationRecord? && log[j].id == log[i].annotation;
        assert l[j] == log[j];
      } else {
        var j :| 0 <= j < |log| && log[j].AnnotationRecord? && log[j].id == x.annotation;
        assert l[j] == log[j];
      }
    }
  }

  /** The remote store: the records saved so far and the id the next annotation receives. */
  class Store {
    var log: seq<Record>
    var nextId: nat

    ghost predicate Valid()
      reads this
    {
      LogValid(log, nextId)
    }

    constructor ()
      ensures Valid() && log == [] && nextId == 0
    {
      log := [];
      nextId := 0;
    }

    /** `Annotation(...).save()`: record the annotation under a fresh id. */
    method SaveAnnotation(location: string, image: int, project: int, users: seq<int>) returns (id: nat)
      requires Valid()
      modifies this
      ensures Valid()
      ensures id == old(nextId) && nextId == old(nextId) + 1
      ensures log == old(log) + [AnnotationRecord(id, location, image, project, users)]
    {
      id := nextId;
      AppendKeepsValid(log, nextId, AnnotationRecord(id, location, image, project, users), nextId + 1);
      log := log + [AnnotationRecord(id, location, image, project, users)];
      nextId := nextId + 1;
    }

    /** `AnnotationTerm(annotation, term).save()`. */
    method SaveTermLink(ghost at: nat, annotation: nat, term: int)
      requires Valid()
      requires at < |log| && log[at].AnnotationRecord? && log[at].id == annotation
      modifies this
      ensures Valid() && nextId == old(nextId)
      ensures log == old(log) + [TermLinkRecord(annotation, term)]
    {
      AppendKeepsValid(log, nextId, TermLinkRecord(annotation, term), nextId);
      log := log + [TermLinkRecord(annotation, term)];
    }

    /** `Property(annotation, key=key, value=value).save()`. */
    method SaveProperty(ghost at: nat, annotation: nat, key: string, value: Value)
      requires Valid()
      requires at < |log| && log[at].AnnotationRecord? && log[at].id == annotation
      modifies this
      ensures Valid() && nextId == old(nextId)
      ensures log == old(log) + [PropertyRecord(annotation, key, value)]
    {
      AppendKeepsValid(log, nextId, PropertyRecord(annotation, key, value), nextId);
      log := log + [PropertyRecord(annotation, key, value)];
    }
  }

  /** What stays fixed over one upload: the collaborators' answers and the geometry oracle. */
  datatype Context = Context(
    image: int, project: int, user: int, height: int,
    ontologies: seq<Terms.Ontology>, repair: seq<Point> -> Repaired)

  /** The geometry kinds the source accepts. */
  predicate Supported(g: FeatureGeometry)
  {
    g.kind == "LineString" || g.kind == "Polygon"
  }

  /** The repaired shape of a feature after the y-axis flip. */
  function Shape(f: Feature, ctx: Context): Repaired
  {
    ctx.repair(FlipPoints(f.geometry.coordinates, ctx.height))
  }

  /** The feature is passed over: an accepted kind whose repaired shape is invalid. */
  predicate Skipped(f: Feature, ctx: Context)
  {
    Supported(f.geometry) && f.geometry.coordinates != [] && !Shape(f, ctx).valid
  }

  /** The feature passes every geometry check: an accepted kind, some vertices, a valid repaired shape. */
  predicate Passes(f: Feature, ctx: Context)
  {
    Supported(f.geometry) && f.geometry.coordinates != [] && Shape(f, ctx).valid
  }

  /** The value of `key` in an entry list: the first entry with that key. */
  function Lookup(props: seq<Entry>, key: string): (r: Option<Value>)
    decreases |props|
    ensures r.None? <==> forall k :: 0 <= k < |props| ==> props[k].key != key
    ensures r.Some? ==> exists k :: 0 <= k < |props| && props[k] == Entry(key, r.value)
  {
    if props == [] then None
    else if props[0].key == key then Some(props[0].value)
    else
      var r := Lookup(props[1..], key);
      assert forall k :: 1 <= k < |props| ==> props[k] == props[1..][k - 1];
      r
  }

  /** `str.lower()` on one character, for the ASCII letters. */
  function LowerChar(c: char): char
  {
    if 'A' <= c <= 'Z' then (c as int + 32) as char else c
  }

  /** `str.lower()`, for the ASCII letters. */
  function Lower(s: string): (r: string)
    ensures |r| == |s|
    ensures forall i :: 0 <= i < |s| ==>
      if 'A' <= s[i] <= 'Z' then r[i] as int == s[i] as int + 32 else r[i] == s[i]
  {
    seq(|s|, i requires 0 <= i < |s| => LowerChar(s[i]))
  }

  /** Lowercasing leaves no upper-case ASCII letter and a second pass changes nothing. */
  lemma LowerIsIdempotent(s: string)
    ensures forall i :: 0 <= i < |s| ==> !('A' <= Lower(s)[i] <= 'Z')
    ensures Lower(Lower(s)) == Lower(s)
  {
  }

  /**
    The term of a feature: none without a `"name"` key, otherwise the id the merged
    mapping gives the lowercased name, failing as the source does.
   */
  function TermFor(props: seq<Entry>, ontologies: seq<Terms.Ontology>): Result<Option<int>, Error>
  {
    match Lookup(props, "name")
    case None => Success(None)
    case Some(v) =>
      if !v.Text? then Failure(NameNotText)
      else
        var name := Lower(v.s);
        var mapping := Terms.TermMap(ontologies);
        if name in mapping then Success(Some(mapping[name])) else Failure(UnknownTerm(name))
  }

  /** One property record per entry, in entry order, all owned by annotation `id`. */
  function PropertyRecords(id: nat, props: seq<Entry>): (r: seq<Record>)
    ensures |r| == |props|
    ensures forall k {:trigger r[k]} :: 0 <= k < |props| ==> r[k] == PropertyRecord(id, props[k].key, props[k].value)
  {
    seq(|props|, k requires 0 <= k < |props| => PropertyRecord(id, props[k].key, props[k].value))
  }

  /** What one feature does: nothing, records saved, or records saved and then an exception. */
  datatype Step = Skip | Emit(records: seq<Record>) | Abort(records: seq<Record>, error: Error)

  /** The handling of one feature (lines 265-287) when the next annotation id is `id`. */
  function FeatureStep(f: Feature, ctx: Context, id: nat): Step
  {
    if !Supported(f.geometry) then Abort([], UnsupportedGeometry)
    else if f.geometry.coordinates == [] then Abort([], EmptyCoordinates)
    else
      var shape := Shape(f, ctx);
      if !shape.valid then Skip
      else
        var annotation := AnnotationRecord(id, shape.wkt, ctx.image, ctx.project, [ctx.user]);
        match TermFor(f.properties, ctx.ontologies)
        case Failure(e) => Abort([annotation], e)
        case Success(None) => Emit([annotation] + PropertyRecords(id, f.properties))
        case Success(Some(t)) => Emit([annotation, TermLinkRecord(id, t)] + PropertyRecords(id, f.properties))
  }

  /** The saved records, the next annotation id and the exception, if any, after a run. */
  datatype Trace = Trace(records: seq<Record>, nextId: nat, failure: Option<Error>)

  /** The loop of lines 264-287 over `features`, starting with annotation id `id0`. */
  function Run(features: seq<Feature>, ctx: Context, id0: nat): Trace
    decreases |features|
  {
    if features == [] then Trace([], id0, None)
    else
      var t := Run(features[..|features| - 1], ctx, id0);
      if t.failure.Some? then t
      else
        match FeatureStep(features[|features| - 1], ctx, t.nextId)
        case Skip => t
        case Emit(rs) => Trace(t.records + rs, t.nextId + 1, None)
        case Abort(rs, e) => Trace(t.records + rs, t.nextId + |rs|, Some(e))
  }

  /**
    The whole of `upload_annotations`: the image lookup, then the collection check,
    then the loop over the features.
   */
  function UploadTrace(
    geojson: FeatureCollection, project: Project, images: seq<Images.Image>, imageFile: string,
    dimensions: (int, int), ontologies: seq<Terms.Ontology>, user: int,
    repair: seq<Point> -> Repaired, id0: nat): (t: Trace)
    ensures Images.ImageByName(images, imageFile).Failure? ==> t == Trace([], id0, Some(ImageNotFound))
    ensures geojson.kind != "FeatureCollection" ==> t.records == [] && t.nextId == id0 && t.failure.Some?
    ensures Images.ImageByName(images, imageFile).Success? && geojson.kind != "FeatureCollection" ==>
      t == Trace([], id0, Some(NotFeatureCollection))
  {
    match Images.ImageByName(images, imageFile)
    case Failure(_) => Trace([], id0, Some(ImageNotFound))
    case Success(img) =>
      if geojson.kind != "FeatureCollection" then Trace([], id0, Some(NotFeatureCollection))
      else Run(geojson.features, Context(img.id, project.id, user, dimensions.1, ontologies, repair), id0)
  }

  /** Once a run has raised, the features after it are never attempted. */
  lemma {:induction false} RunAfterFailure(a: seq<Feature>, b: seq<Feature>, ctx: Context, id0: nat)
    requires Run(a, ctx, id0).failure.Some?
    decreases |b|
    ensures Run(a + b, ctx, id0) == Run(a, ctx, id0)
  {
    if b != [] {
      var b' := b[..|b| - 1];
      assert (a + b)[..|a + b| - 1] == a + b';
      RunAfterFailure(a, b', ctx, id0);
    } else {
      assert a + b == a;
    }
  }

  /** A skipped feature contributes nothing, wherever it stands: the others are handled as without it. */
  lemma {:induction false} RunSkipsInvalid(a: seq<Feature>, f: Feature, b: seq<Feature>, ctx: Context, id0: nat)
    requires Skipped(f, ctx)
    decreases |b|
    ensures Run(a + [f] + b, ctx, id0) == Run(a + b, ctx, id0)
  {
    if b == [] {
      assert (a + [f] + b)[..|a|] == a;
      assert a + b == a;
    } else {
      var b' := b[..|b| - 1];
      assert (a + [f] + b)[..|a + [f] + b| - 1] == a + [f] + b';
      assert (a + b)[..|a + b| - 1] == a + b';
      RunSkipsInvalid(a, f, b', ctx, id0);
    }
  }

  /** The records of a run only grow: what earlier features saved stays in front. */
  lemma {:induction false} RunExtends(a: seq<Feature>, b: seq<Feature>, ctx: Context, id0: nat)
    decreases |b|
    ensures Run(a, ctx, id0).records <= Run(a + b, ctx, id0).records
  {
    if b != [] {
      var b' := b[..|b| - 1];
      assert (a + b)[..|a + b| - 1] == a + b';
      RunExtends(a, b', ctx, id0);
    } else {
      assert a + b == a;
    }
  }

  /**
    The run stops at the first feature that raises: the records are those of the
    features before it followed by what that feature saved before raising.
   */
  lemma RunStopsAt(features: seq<Feature>, k: nat, ctx: Context, id0: nat)
    requires k < |features|
    requires Run(features[..k], ctx, id0).failure.None?
    requires FeatureStep(features[k], ctx, Run(features[..k], ctx, id0).nextId).Abort?
    ensures
      var before := Run(features[..k], ctx, id0);
      var step := FeatureStep(features[k], ctx, before.nextId);
      Run(features, ctx, id0) == Trace(before.records + step.records, before.nextId + |step.records|, Some(step.error))
  {
    assert features[..k + 1][..k] == features[..k];
    RunAfterFailure(features[..k + 1], features[k + 1..], ctx, id0);
    assert features[..k + 1] + features[k + 1..] == features;
  }

  /** The number of annotation records in a log. */
  function CountAnnotations(records: seq<Record>): nat
    decreases |records|
  {
    if records == [] then 0
    else CountAnnotations(records[..|records| - 1]) + (if records[|records| - 1].AnnotationRecord? then 1 else 0)
  }

  lemma {:induction false} CountAnnotationsAppend(a: seq<Record>, b: seq<Record>)
    decreases |b|
    ensures CountAnnotations(a + b) == CountAnnotations(a) + CountAnnotations(b)
  {
    if b != [] {
      var b' := b[..|b| - 1];
      assert (a + b)[..|a + b| - 1] == a + b';
      CountAnnotationsAppend(a, b');
    } else {
      assert a + b == a;
    }
  }

  lemma {:induction false} NoAnnotationsInProperties(id: nat, props: seq<Entry>)
    decreases |props|
    ensures CountAnnotations(PropertyRecords(id, props)) == 0
  {
    if props != [] {
      var init := props[..|props| - 1];
      NoAnnotationsInProperties(id, init);
      assert PropertyRecords(id, props)[..|props| - 1] == PropertyRecords(id, init);
    }
  }

  /** The number of features passed over for an invalid shape. */
  function CountSkipped(features: seq<Feature>, ctx: Context): nat
    decreases |features|
  {
    if features == [] then 0
    else CountSkipped(features[..|features| - 1], ctx) + (if Skipped(features[|features| - 1], ctx) then 1 else 0)
  }

  /** A feature saves at most one annotation: one when it is uploaded, none when it raises before saving. */
  lemma StepCounts(f: Feature, ctx: Context, id: nat)
    ensures FeatureStep(f, ctx, id).Emit? ==> CountAnnotations(FeatureStep(f, ctx, id).records) == 1
    ensures FeatureStep(f, ctx, id).Abort? ==>
      |FeatureStep(f, ctx, id).records| <= 1 &&
      CountAnnotations(FeatureStep(f, ctx, id).records) == |FeatureStep(f, ctx, id).records|
  {
    var step := FeatureStep(f, ctx, id);
    var p := PropertyRecords(id, f.properties);
    NoAnnotationsInProperties(id, f.properties);
    if step.Emit? {
      var rs := step.records;
      if rs == [rs[0]] + p {
        CountAnnotationsAppend([rs[0]], p);
        assert CountAnnotations([rs[0]]) == 1 by { assert [rs[0]][..0] == []; }
      } else {
        assert rs == [rs[0], rs[1]] + p;
        CountAnnotationsAppend([rs[0], rs[1]], p);
        assert [rs[0], rs[1]][..1] == [rs[0]];
        assert [rs[0]][..0] == [];
      }
    } else if step.Abort? && step.records != [] {
      assert step.records == [step.records[0]];
      assert step.records[..0] == [];
    }
  }

  /**
    Every saved annotation took one id; and when no exception was raised, every
    feature was either uploaded as one annotation or skipped.
   */
  lemma {:induction false} RunCounts(features: seq<Feature>, ctx: Context, id0: nat)
    decreases |features|
    ensures Run(features, ctx, id0).nextId == id0 + CountAnnotations(Run(features, ctx, id0).records)
    ensures Run(features, ctx, id0).failure.None? ==>
      CountAnnotations(Run(features, ctx, id0).records) + CountSkipped(features, ctx) == |features|
  {
    if features != [] {
      var init := features[..|features| - 1];
      var f := features[|features| - 1];
      RunCounts(init, ctx, id0);
      var t := Run(init, ctx, id0);
      if t.failure.None? {
        var step := FeatureStep(f, ctx, t.nextId);
        StepCounts(f, ctx, t.nextId);
        if !step.Skip? {
          CountAnnotationsAppend(t.records, step.records);
        }
      }
    }
  }

  /**
    A feature that passes the checks is saved as exactly one annotation of the image
    and project with the current user, then a term link to the lowercased name's
    term exactly when it has a `"name"` key, then one property per entry in entry
    order, `"name"` included.
   */
  lemma EmittedRecords(f: Feature, ctx: Context, id: nat)
    requires FeatureStep(f, ctx, id).Emit?
    ensures
      var rs := FeatureStep(f, ctx, id).records;
      var name := Lookup(f.properties, "name");
      var linked := name.Some?;
      && |rs| == 1 + (if linked then 1 else 0) + |f.properties|
      && rs[0] == AnnotationRecord(id, Shape(f, ctx).wkt, ctx.image, ctx.project, [ctx.user])
      && (linked <==> rs[1..|rs| - |f.properties|] != [])
      && (linked ==>
            && name.value.Text?
            && Lower(name.value.s) in Terms.TermMap(ctx.ontologies)
            && rs[1] == TermLinkRecord(id, Terms.TermMap(ctx.ontologies)[Lower(name.value.s)]))
      && rs[|rs| - |f.properties|..] == PropertyRecords(id, f.properties)
      && (forall k :: 0 <= k < |f.properties| ==>
            rs[|rs| - |f.properties| + k] == PropertyRecord(id, f.properties[k].key, f.properties[k].value))
  {
    var annotation := AnnotationRecord(id, Shape(f, ctx).wkt, ctx.image, ctx.project, [ctx.user]);
    var links := LinkRecords(f.properties, ctx.ontologies, id);
    var p := PropertyRecords(id, f.properties);
    match TermFor(f.properties, ctx.ontologies)
    case Success(Some(t)) =>
      assert [annotation, TermLinkRecord(id, t)] == [annotation] + links;
    case Success(None) =>
      assert [annotation] + links == [annotation];
    ConcatParts(annotation, links, p);
  }

  /** The term link a feature's `"name"` asks for, if it resolves. */
  function LinkRecords(props: seq<Entry>, ontologies: seq<Terms.Ontology>, id: nat): seq<Record>
  {
    match TermFor(props, ontologies)
    case Success(Some(t)) => [TermLinkRecord(id, t)]
    case _ => []
  }

  /** The three parts of an uploaded feature's records can be read back from their concatenation. */
  lemma ConcatParts(x: Record, links: seq<Record>, p: seq<Record>)
    requires |links| <= 1
    ensures
      var rs := [x] + links + p;
      && |rs| == 1 + |links| + |p| && rs[0] == x
      && rs[1..|rs| - |p|] == links && rs[|rs| - |p|..] == p
      && (links != [] ==> rs[1] == links[0])
      && forall k :: 0 <= k < |p| ==> rs[|rs| - |p| + k] == p[k]
  {
    var rs := [x] + links + p;
    assert rs[1..|rs| - |p|] == links;
    assert rs[|rs| - |p|..] == p;
  }

  /**
    A feature that passes the geometry checks is uploaded exactly when it has no
    `"name"` key, or a text name whose lowercased form is a term of some ontology.
   */
  lemma EmittedIff(f: Feature, ctx: Context, id: nat)
    requires Passes(f, ctx)
    ensures FeatureStep(f, ctx, id).Emit? <==>
      var name := Lookup(f.properties, "name");
      name.None? || (name.value.Text? && Terms.Named(ctx.ontologies, Lower(name.value.s)))
  {
    var name := Lookup(f.properties, "name");
    if name.Some? && name.value.Text? {
      Terms.TermMapKeys(ctx.ontologies, Lower(name.value.s));
    }
  }

  /** A feature with no `"name"` key is uploaded as its annotation and its properties, with no term link. */
  lemma UnnamedFeatureRecords(f: Feature, ctx: Context, id: nat)
    requires Passes(f, ctx)
    requires Lookup(f.properties, "name").None?
    ensures FeatureStep(f, ctx, id) ==
      Emit([AnnotationRecord(id, Shape(f, ctx).wkt, ctx.image, ctx.project, [ctx.user])] + PropertyRecords(id, f.properties))
  {
  }

  /** A `"name"` value that is not text raises at `.lower()`, after the annotation was saved. */
  lemma NameNotTextAborts(f: Feature, ctx: Context, id: nat)
    requires Passes(f, ctx)
    requires Lookup(f.properties, "name").Some? && !Lookup(f.properties, "name").value.Text?
    ensures FeatureStep(f, ctx, id) ==
      Abort([AnnotationRecord(id, Shape(f, ctx).wkt, ctx.image, ctx.project, [ctx.user])], NameNotText)
  {
  }

  /**
    A feature of an unsupported kind, or with no vertices, raises before anything of
    it is saved; a supported kind is checked before the coordinates.
   */
  lemma GeometryChecksAbort(f: Feature, ctx: Context, id: nat)
    ensures !Supported(f.geometry) ==> FeatureStep(f, ctx, id) == Abort([], UnsupportedGeometry)
    ensures Supported(f.geometry) && f.geometry.coordinates == [] ==> FeatureStep(f, ctx, id) == Abort([], EmptyCoordinates)
    ensures Supported(f.geometry) && f.geometry.coordinates != [] ==> !FeatureStep(f, ctx, id).Abort? || |FeatureStep(f, ctx, id).records| == 1
  {
  }

  /**
    A feature that passes the geometry checks and has a text `"name"` raises
    UnknownTerm exactly when no ontology has a term of the lowercased name; it has
    then already saved its annotation, and nothing else.
   */
  lemma UnknownTermAborts(f: Feature, ctx: Context, id: nat, name: string)
    requires Passes(f, ctx)
    requires Lookup(f.properties, "name") == Some(Text(name))
    ensures FeatureStep(f, ctx, id).Abort? <==> !Terms.Named(ctx.ontologies, Lower(name))
    ensures FeatureStep(f, ctx, id).Abort? ==>
      FeatureStep(f, ctx, id) ==
        Abort([AnnotationRecord(id, Shape(f, ctx).wkt, ctx.image, ctx.project, [ctx.user])], UnknownTerm(Lower(name)))
  {
    Terms.TermMapKeys(ctx.ontologies, Lower(name));
  }

  /** The records a step saves, whatever its kind. */
  function Saved(step: Step): seq<Record>
  {
    match step
    case Skip => []
    case Emit(rs) => rs
    case Abort(rs, _) => rs
  }

  /** The number of annotation ids a step uses up. */
  function IdsUsed(step: Step): nat
  {
    match step
    case Skip => 0
    case Emit(_) => 1
    case Abort(rs, _) => |rs|
  }

  /** The exception a step raises, if any. */
  function Raised(step: Step): Option<Error>
  {
    if step.Abort? then Some(step.error) else None
  }

  /** One more iteration of the loop, when no exception has been raised so far. */
  lemma RunNext(features: seq<Feature>, i: nat, ctx: Context, id0: nat)
    requires i < |features|
    requires Run(features[..i], ctx, id0).failure.None?
    ensures
      var t := Run(features[..i], ctx, id0);
      var step := FeatureStep(features[i], ctx, t.nextId);
      Run(features[..i + 1], ctx, id0) == Trace(t.records + Saved(step), t.nextId + IdsUsed(step), Raised(step))
  {
    assert features[..i + 1][..i] == features[..i];
    var t := Run(features[..i], ctx, id0);
    if FeatureStep(features[i], ctx, t.nextId).Skip? {
      assert t.records + [] == t.records;
    }
  }

  /** Concatenation regroups freely. */
  lemma AppendAssoc<T>(a: seq<T>, b: seq<T>, c: seq<T>)
    ensures (a + b) + c == a + (b + c)
  {
  }

  /** The loop of lines 285-287: one property record per entry, in entry order. */
  method SaveProperties(store: Store, ghost at: nat, id: nat, props: seq<Entry>)
    requires store.Valid()
    requires at < |store.log| && store.log[at].AnnotationRecord? && store.log[at].id == id
    modifies store
    ensures store.Valid() && store.nextId == old(store.nextId)
    ensures store.log == old(store.log) + PropertyRecords(id, props)
  {
    for k := 0 to |props|
      invariant store.Valid() && store.nextId == old(store.nextId)
      invariant at < |store.log| && store.log[at] == old(store.log[at])
      invariant store.log == old(store.log) + PropertyRecords(id, props[..k])
    {
      assert PropertyRecords(id, props[..k + 1]) == PropertyRecords(id, props[..k]) + [PropertyRecord(id, props[k].key, props[k].value)];
      store.SaveProperty(at, id, props[k].key, props[k].value);
    }
    assert props[..|props|] == props;
  }

  /** The handling of one feature by the loop body (lines 265-287). */
  method UploadFeature(store: Store, f: Feature, ctx: Context) returns (raised: Option<Error>)
    requires store.Valid()
    modifies store
    ensures store.Valid()
    ensures
      var step := FeatureStep(f, ctx, old(store.nextId));
      store.log == old(store.log) + Saved(step) && store.nextId == old(store.nextId) + IdsUsed(step) && raised == Raised(step)
  {
    if !Supported(f.geometry) {
      return Some(UnsupportedGeometry);
    }
    if f.geometry.coordinates == [] {
      return Some(EmptyCoordinates);
    }
    var coords := FlipPoints(f.geometry.coordinates, ctx.height);
    var shape := ctx.repair(coords);
    if !shape.valid {
      return None;
    }
    ghost var at := |store.log|;
    var id := store.SaveAnnotation(shape.wkt, ctx.image, ctx.project, [ctx.user]);
    ghost var annotation := store.log[at];
    var name := Lookup(f.properties, "name");
    if name.Some? {
      if !name.value.Text? {
        return Some(NameNotText);
      }
      var term := Terms.GetTermByName(ctx.ontologies, Lower(name.value.s));
      if term.Failure? {
        return Some(UnknownTerm(Lower(name.value.s)));
      }
      store.SaveTermLink(at, id, term.value);
      AppendAssoc(old(store.log), [annotation], [TermLinkRecord(id, term.value)]);
      assert [annotation] + [TermLinkRecord(id, term.value)] == [annotation, TermLinkRecord(id, term.value)];
    }
    ghost var before := store.log;
    SaveProperties(store, at, id, f.properties);
    AppendAssoc(old(store.log), before[|old(store.log)|..], PropertyRecords(id, f.properties));
    return None;
  }

  /** The loop of lines 264-287 over the features, in input order, stopping at the first exception. */
  method UploadFeatures(store: Store, features: seq<Feature>, ctx: Context) returns (raised: Option<Error>)
    requires store.Valid()
    modifies store
    ensures store.Valid()
    ensures
      var t := Run(features, ctx, old(store.nextId));
      store.log == old(store.log) + t.records && store.nextId == t.nextId && raised == t.failure
  {
    ghost var id0 := store.nextId;
    for i := 0 to |features|
      invariant store.Valid()
      invariant Run(features[..i], ctx, id0).failure.None?
      invariant store.log == old(store.log) + Run(features[..i], ctx, id0).records
      invariant store.nextId == Run(features[..i], ctx, id0).nextId
    {
      ghost var t := Run(features[..i], ctx, id0);
      ghost var step := FeatureStep(features[i], ctx, t.nextId);
      RunNext(features, i, ctx, id0);
      raised := UploadFeature(store, features[i], ctx);
      AppendAssoc(old(store.log), t.records, Saved(step));
      if raised.Some? {
        RunAfterFailure(features[..i + 1], features[i + 1..], ctx, id0);
        assert features[..i + 1] + features[i + 1..] == features;
        return;
      }
    }
    assert features[..|features|] == features;
    return None;
  }

  /**
    `upload_annotations`. `images` is what `get_images_of_project` returns for the
    project, `ontologies` what `get_ontologies` returns, `user` the current user's id.
    The result is the exception raised, or None.
   */
  method UploadAnnotations(
    store: Store, geojson: FeatureCollection, project: Project, images: seq<Images.Image>,
    imageFile: string, dimensions: (int, int), ontologies: seq<Terms.Ontology>, user: int,
    repair: seq<Point> -> Repaired) returns (raised: Option<Error>)
    requires store.Valid()
    modifies store
    ensures store.Valid()
    ensures
      var t := UploadTrace(geojson, project, images, imageFile, dimensions, ontologies, user, repair, old(store.nextId));
      store.log == old(store.log) + t.records && store.nextId == t.nextId && raised == t.failure
  {
    var found := Images.ImageByName(images, imageFile);
    if found.Failure? {
      return Some(ImageNotFound);
    }
    var img := found.value;
    if geojson.kind != "FeatureCollection" {
      return Some(NotFeatureCollection);
    }
    var ctx := Context(img.id, project.id, user, dimensions.1, ontologies, repair);
    raised := UploadFeatures(store, geojson.features, ctx);
  }
}
