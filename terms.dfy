/**
  The term-name to term-id mapping built by `get_term_id_mapping` and the lookup
  of `get_term_by_name` (cytomine_utils/_utils.py, lines 173-193).
 */
module Terms {
  import opened Wrappers

  /** One child of an ontology, as the `{"name": ..., "id": ...}` record the source reads. */
  datatype TermEntry = TermEntry(name: string, id: int)

  /** An ontology, reduced to its ordered children. */
  datatype Ontology = Ontology(children: seq<TermEntry>)

  /** Indexing a dict with a missing key raises KeyError carrying that key. */
  datatype TermError = KeyError(key: string)

  /** `{x["name"]: x["id"] for x in children}`: later children override earlier ones. */
  function ChildMap(children: seq<TermEntry>): map<string, int>
    decreases |children|
  {
    if children == [] then map[]
    else
      var last := children[|children| - 1];
      ChildMap(children[..|children| - 1])[last.name := last.id]
  }

  /** The mapping after merging every ontology in turn with `|=`. */
  function TermMap(ontologies: seq<Ontology>): map<string, int>
    decreases |ontologies|
  {
    if ontologies == [] then map[]
    else TermMap(ontologies[..|ontologies| - 1]) + ChildMap(ontologies[|ontologies| - 1].children)
  }

  /** Some child of ontology `i` is named `name`. */
  ghost predicate NamedIn(ontologies: seq<Ontology>, i: int, name: string)
  {
    0 <= i < |ontologies| && exists k :: 0 <= k < |ontologies[i].children| && ontologies[i].children[k].name == name
  }

  /** Some ontology has a child named `name`. */
  ghost predicate Named(ontologies: seq<Ontology>, name: string)
  {
    exists i :: NamedIn(ontologies, i, name)
  }

  /** The keys of an ontology's map are exactly the names of its children. */
  lemma {:induction false} ChildMapKeys(children: seq<TermEntry>, name: string)
    decreases |children|
    ensures name in ChildMap(children) <==> exists k :: 0 <= k < |children| && children[k].name == name
  {
    if children != [] {
      var init := children[..|children| - 1];
      ChildMapKeys(init, name);
      assert forall k :: 0 <= k < |init| ==> init[k] == children[k];
    }
  }

  /** The id a name maps to is that of the last child carrying the name. */
  lemma {:induction false} ChildMapLastWins(children: seq<TermEntry>, k: nat)
    requires k < |children|
    requires forall j :: k < j < |children| ==> children[j].name != children[k].name
    decreases |children|
    ensures children[k].name in ChildMap(children)
    ensures ChildMap(children)[children[k].name] == children[k].id
  {
    if k < |children| - 1 {
      var init := children[..|children| - 1];
      ChildMapLastWins(init, k);
    }
  }

  /** Every name of every ontology is a key of the merged mapping, and no other string is. */
  lemma {:induction false} TermMapKeys(ontologies: seq<Ontology>, name: string)
    decreases |ontologies|
    ensures name in TermMap(ontologies) <==> Named(ontologies, name)
  {
    if ontologies != [] {
      var n := |ontologies| - 1;
      var init := ontologies[..n];
      TermMapKeys(init, name);
      ChildMapKeys(ontologies[n].children, name);
      assert forall i :: 0 <= i < n ==> init[i] == ontologies[i];
      if Named(ontologies, name) {
        var i :| NamedIn(ontologies, i, name);
        if i < n {
          assert NamedIn(init, i, name);
        }
      }
      if Named(init, name) {
        var i :| NamedIn(init, i, name);
        assert NamedIn(ontologies, i, name);
      }
      if name in ChildMap(ontologies[n].children) {
        assert NamedIn(ontologies, n, name);
      }
    }
  }

  /**
    When several ontologies share a name, the last one that has it decides its id:
    the merged mapping agrees with that ontology's own mapping.
   */
  lemma {:induction false} TermMapLastOntologyWins(ontologies: seq<Ontology>, i: nat, name: string)
    requires i < |ontologies|
    requires name in ChildMap(ontologies[i].children)
    requires forall j :: i < j < |ontologies| ==> name !in ChildMap(ontologies[j].children)
    decreases |ontologies|
    ensures name in TermMap(ontologies)
    ensures TermMap(ontologies)[name] == ChildMap(ontologies[i].children)[name]
  {
    var n := |ontologies| - 1;
    if i < n {
      var init := ontologies[..n];
      assert forall j :: 0 <= j < n ==> init[j] == ontologies[j];
      TermMapLastOntologyWins(init, i, name);
    }
  }

  /** `get_term_id_mapping`: merge the ontologies' maps one after the other. */
  method TermIdMapping(ontologies: seq<Ontology>) returns (mapping: map<string, int>)
    ensures mapping == TermMap(ontologies)
    ensures forall name :: name in mapping <==> Named(ontologies, name)
  {
    mapping := map[];
    for i := 0 to |ontologies|
      invariant mapping == TermMap(ontologies[..i])
    {
      assert ontologies[..i + 1][..i] == ontologies[..i];
      mapping := mapping + ChildMap(ontologies[i].children);
    }
    assert ontologies[..|ontologies|] == ontologies;
    forall name | true
      ensures name in mapping <==> Named(ontologies, name)
    {
      TermMapKeys(ontologies, name);
    }
  }

  /**
    `get_term_by_name`, the term represented by its id: the id the merged mapping
    gives `name`, or KeyError when no ontology has a term of that name.
   */
  method GetTermByName(ontologies: seq<Ontology>, name: string) returns (r: Result<int, TermError>)
    ensures r.Success? <==> Named(ontologies, name)
    ensures r.Success? <==> name in TermMap(ontologies)
    ensures r.Success? ==> r.value == TermMap(ontologies)[name]
    ensures r.Failure? ==> r.error == KeyError(name)
  {
    var mapping := TermIdMapping(ontologies);
    if name in mapping {
      r := Success(mapping[name]);
    } else {
      r := Failure(KeyError(name));
    }
  }
}
