/**
  The grouping loop of `backup_annotations` (cytomine_utils/_utils.py, lines 336-352):
  each annotation is appended to the list kept under its image's file name, a key
  being created the first time that name is met.
 */
module Backup {
  import Images

  /** `Path(get_image_by_id(annot.image).filename).name`, the key of an annotation. */
  function ImageName<A>(imageOf: A -> int, filenameOf: int -> string, a: A): string
  {
    Images.PathName(filenameOf(imageOf(a)))
  }

  /** The dictionary after the loop has visited `annots`. */
  function Grouped<A>(annots: seq<A>, imageOf: A -> int, filenameOf: int -> string): map<string, seq<A>>
    decreases |annots|
  {
    if annots == [] then map[]
    else
      var groups := Grouped(annots[..|annots| - 1], imageOf, filenameOf);
      var a := annots[|annots| - 1];
      var name := ImageName(imageOf, filenameOf, a);
      groups[name := (if name in groups then groups[name] else []) + [a]]
  }

  /** The dictionary's keys in insertion order. */
  function KeyOrder<A>(annots: seq<A>, imageOf: A -> int, filenameOf: int -> string): seq<string>
    decreases |annots|
  {
    if annots == [] then []
    else
      var order := KeyOrder(annots[..|annots| - 1], imageOf, filenameOf);
      var name := ImageName(imageOf, filenameOf, annots[|annots| - 1]);
      if name in order then order else order + [name]
  }

  /** The annotations of image name `name`, in iteration order. */
  function Selected<A>(annots: seq<A>, imageOf: A -> int, filenameOf: int -> string, name: string): seq<A>
    decreases |annots|
  {
    if annots == [] then []
    else
      var rest := Selected(annots[..|annots| - 1], imageOf, filenameOf, name);
      if ImageName(imageOf, filenameOf, annots[|annots| - 1]) == name then rest + [annots[|annots| - 1]] else rest
  }

  ghost predicate Distinct(keys: seq<string>)
  {
    forall i, j :: 0 <= i < j < |keys| ==> keys[i] != keys[j]
  }

  /** The total length of the lists filed under `keys`. */
  function SumSizes<A>(keys: seq<string>, groups: map<string, seq<A>>): nat
    requires forall k :: k in keys ==> k in groups
    decreases |keys|
  {
    if keys == [] then 0 else |groups[keys[0]]| + SumSizes(keys[1..], groups)
  }

  /**
    Each name's list holds exactly that image's annotations in iteration order, and
    a name is a key exactly when some annotation belongs to that image.
   */
  lemma {:induction false} GroupedSelected<A>(annots: seq<A>, imageOf: A -> int, filenameOf: int -> string, name: string)
    decreases |annots|
    ensures name in Grouped(annots, imageOf, filenameOf) <==> Selected(annots, imageOf, filenameOf, name) != []
    ensures name in Grouped(annots, imageOf, filenameOf) ==>
      Grouped(annots, imageOf, filenameOf)[name] == Selected(annots, imageOf, filenameOf, name)
  {
    if annots != [] {
      GroupedSelected(annots[..|annots| - 1], imageOf, filenameOf, name);
    }
  }

  /** Annotation `a` is filed under `name`. */
  predicate FiledUnder<A>(imageOf: A -> int, filenameOf: int -> string, a: A, name: string)
  {
    ImageName(imageOf, filenameOf, a) == name
  }

  /** An image's list is non-empty exactly when one of the annotations belongs to that image. */
  lemma {:induction false} SelectedNonEmpty<A>(annots: seq<A>, imageOf: A -> int, filenameOf: int -> string, name: string)
    decreases |annots|
    ensures Selected(annots, imageOf, filenameOf, name) != [] <==>
      exists k :: 0 <= k < |annots| && FiledUnder(imageOf, filenameOf, annots[k], name)
  {
    if annots != [] {
      var n := |annots| - 1;
      var init := annots[..n];
      SelectedNonEmpty(init, imageOf, filenameOf, name);
      if FiledUnder(imageOf, filenameOf, annots[n], name) {
        assert Selected(annots, imageOf, filenameOf, name) != [];
      } else if exists k :: 0 <= k < |init| && FiledUnder(imageOf, filenameOf, init[k], name) {
        var k :| 0 <= k < |init| && FiledUnder(imageOf, filenameOf, init[k], name);
        assert annots[k] == init[k];
      } else {
        forall k | 0 <= k < |annots|
          ensures !FiledUnder(imageOf, filenameOf, annots[k], name)
        {
          if k < n {
            assert annots[k] == init[k];
          }
        }
      }
    }
  }

  /** The insertion order lists every key once and nothing else. */
  lemma {:induction false} KeyOrderIsKeys<A>(annots: seq<A>, imageOf: A -> int, filenameOf: int -> string)
    decreases |annots|
    ensures Distinct(KeyOrder(annots, imageOf, filenameOf))
    ensures forall n :: n in KeyOrder(annots, imageOf, filenameOf) <==> n in Grouped(annots, imageOf, filenameOf)
  {
    if annots != [] {
      KeyOrderIsKeys(annots[..|annots| - 1], imageOf, filenameOf);
    }
  }

  /** The key order after visiting a prefix of the annotations is a prefix of the final key order. */
  lemma {:induction false} KeyOrderPrefix<A>(annots: seq<A>, k: nat, imageOf: A -> int, filenameOf: int -> string)
    requires k <= |annots|
    decreases |annots|
    ensures KeyOrder(annots[..k], imageOf, filenameOf) <= KeyOrder(annots, imageOf, filenameOf)
  {
    if k < |annots| {
      var init := annots[..|annots| - 1];
      assert init[..k] == annots[..k];
      KeyOrderPrefix(init, k, imageOf, filenameOf);
    } else {
      assert annots[..k] == annots;
    }
  }

  /**
    Annotation `k` adds its image name to the end of the key order exactly when no
    earlier annotation is filed under that name, and leaves the order alone otherwise.
   */
  lemma KeyOrderFirstMet<A>(annots: seq<A>, k: nat, imageOf: A -> int, filenameOf: int -> string)
    requires k < |annots|
    ensures
      var name := ImageName(imageOf, filenameOf, annots[k]);
      (forall j :: 0 <= j < k ==> !FiledUnder(imageOf, filenameOf, annots[j], name)) ==>
        KeyOrder(annots[..k + 1], imageOf, filenameOf) == KeyOrder(annots[..k], imageOf, filenameOf) + [name]
    ensures
      var name := ImageName(imageOf, filenameOf, annots[k]);
      (exists j :: 0 <= j < k && FiledUnder(imageOf, filenameOf, annots[j], name)) ==>
        KeyOrder(annots[..k + 1], imageOf, filenameOf) == KeyOrder(annots[..k], imageOf, filenameOf)
  {
    var name := ImageName(imageOf, filenameOf, annots[k]);
    var pre := annots[..k];
    assert annots[..k + 1][..k] == pre;
    KeyOrderIsKeys(pre, imageOf, filenameOf);
    GroupedSelected(pre, imageOf, filenameOf, name);
    SelectedNonEmpty(pre, imageOf, filenameOf, name);
    assert forall j :: 0 <= j < k ==> pre[j] == annots[j];
  }

  lemma {:induction false} SumSizesAppend<A>(keys: seq<string>, name: string, groups: map<string, seq<A>>)
    requires forall k :: k in keys ==> k in groups
    requires name in groups
    decreases |keys|
    ensures SumSizes(keys + [name], groups) == SumSizes(keys, groups) + |groups[name]|
  {
    if keys != [] {
      assert (keys + [name])[1..] == keys[1..] + [name];
      SumSizesAppend(keys[1..], name, groups);
    }
  }

  /** Replacing the list of one key changes the total by the change in that list's length. */
  lemma {:induction false} SumSizesUpdate<A>(keys: seq<string>, groups: map<string, seq<A>>, name: string, list: seq<A>)
    requires forall k :: k in keys ==> k in groups
    requires Distinct(keys)
    decreases |keys|
    ensures name !in keys ==> SumSizes(keys, groups[name := list]) == SumSizes(keys, groups)
    ensures name in keys ==> SumSizes(keys, groups[name := list]) + |groups[name]| == SumSizes(keys, groups) + |list|
  {
    if keys != [] {
      SumSizesUpdate(keys[1..], groups, name, list);
      if keys[0] == name {
        assert name !in keys[1..] by {
          forall j | 0 <= j < |keys[1..]| ensures keys[1..][j] != name {
            assert keys[1..][j] == keys[j + 1];
          }
        }
      }
    }
  }

  /** Nothing is lost or duplicated: the lists hold as many entries as there are annotations. */
  lemma {:induction false} GroupedTotal<A>(annots: seq<A>, imageOf: A -> int, filenameOf: int -> string)
    decreases |annots|
    ensures forall k :: k in KeyOrder(annots, imageOf, filenameOf) ==> k in Grouped(annots, imageOf, filenameOf)
    ensures SumSizes(KeyOrder(annots, imageOf, filenameOf), Grouped(annots, imageOf, filenameOf)) == |annots|
  {
    KeyOrderIsKeys(annots, imageOf, filenameOf);
    if annots != [] {
      var init := annots[..|annots| - 1];
      var a := annots[|annots| - 1];
      var name := ImageName(imageOf, filenameOf, a);
      var groups := Grouped(init, imageOf, filenameOf);
      var order := KeyOrder(init, imageOf, filenameOf);
      GroupedTotal(init, imageOf, filenameOf);
      KeyOrderIsKeys(init, imageOf, filenameOf);
      var list := (if name in groups then groups[name] else []) + [a];
      if name in order {
        SumSizesUpdate(order, groups, name, list);
      } else {
        SumSizesUpdate(order, groups, name, list);
        SumSizesAppend(order, name, groups[name := list]);
      }
    }
  }

  /**
    The loop of `backup_annotations`. `imageOf` gives an annotation's image id,
    `filenameOf` the file name `get_image_by_id` reports for an id. `order` is the
    dictionary's insertion order.
   */
  method GroupByImage<A>(annotations: seq<A>, imageOf: A -> int, filenameOf: int -> string)
    returns (groups: map<string, seq<A>>, order: seq<string>)
    ensures groups == Grouped(annotations, imageOf, filenameOf)
    ensures order == KeyOrder(annotations, imageOf, filenameOf)
    ensures forall n :: n in groups <==>
      exists k :: 0 <= k < |annotations| && FiledUnder(imageOf, filenameOf, annotations[k], n)
    ensures forall n :: n in groups ==> groups[n] == Selected(annotations, imageOf, filenameOf, n)
    ensures Distinct(order) && forall n :: n in order <==> n in groups
    ensures SumSizes(order, groups) == |annotations|
  {
    groups, order := map[], [];
    for i := 0 to |annotations|
      invariant groups == Grouped(annotations[..i], imageOf, filenameOf)
      invariant order == KeyOrder(annotations[..i], imageOf, filenameOf)
    {
      assert annotations[..i + 1][..i] == annotations[..i];
      KeyOrderIsKeys(annotations[..i], imageOf, filenameOf);
      var a := annotations[i];
      var name := Images.PathName(filenameOf(imageOf(a)));
      if name !in groups {
        groups := groups[name := []];
        order := order + [name];
      }
      groups := groups[name := groups[name] + [a]];
    }
    assert annotations[..|annotations|] == annotations;
    forall n | true
      ensures n in groups <==> exists k :: 0 <= k < |annotations| && FiledUnder(imageOf, filenameOf, annotations[k], n)
      ensures n in groups ==> groups[n] == Selected(annotations, imageOf, filenameOf, n)
    {
      GroupedSelected(annotations, imageOf, filenameOf, n);
      SelectedNonEmpty(annotations, imageOf, filenameOf, n);
    }
    KeyOrderIsKeys(annotations, imageOf, filenameOf);
    GroupedTotal(annotations, imageOf, filenameOf);
  }
}
