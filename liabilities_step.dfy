/**
 * The wizard step that edits the list of children: add a child with the
 * default education cost, remove the child at an index, change one field of
 * the child at an index, and show the education total.
 */
module LiabilitiesStep {
  import opened Wrappers
  import opened Household

  const DEFAULT_EDUCATION_COST: real := 60000.0

  /** `addChild`: a blank child with the default education cost, at the end. */
  function AddChild(children: seq<Child>): (r: seq<Child>)
    ensures |r| == |children| + 1 && r[..|children|] == children
    ensures r[|children|] == Child("", "", Some(DEFAULT_EDUCATION_COST))
  {
    children + [Child("", "", Some(DEFAULT_EDUCATION_COST))]
  }

  /** `children.filter((_, i) => i !== index)`, the positions counted from `start`. */
  function WithoutPosition(s: seq<Child>, index: int, start: int): seq<Child>
    decreases |s|
  {
    if s == [] then []
    else (if start == index then [] else [s[0]]) + WithoutPosition(s[1..], index, start + 1)
  }

  /** `removeChild`. */
  function RemoveChild(children: seq<Child>, index: int): seq<Child>
  {
    WithoutPosition(children, index, 0)
  }

  lemma {:induction false} WithoutPositionSplices(s: seq<Child>, index: int, start: int)
    ensures start <= index < start + |s| ==>
      WithoutPosition(s, index, start) == s[..index - start] + s[index - start + 1..]
    ensures !(start <= index < start + |s|) ==> WithoutPosition(s, index, start) == s
    decreases |s|
  {
    if s != [] {
      WithoutPositionSplices(s[1..], index, start + 1);
      if start == index {
        assert s[..0] == [] && s[1..] == s[index - start + 1..];
      } else if start < index < start + |s| {
        assert s[..index - start] == [s[0]] + s[1..][..index - start - 1];
        assert s[index - start + 1..] == s[1..][index - start..];
      } else {
        assert s == [s[0]] + s[1..];
      }
    }
  }

  /** Removing an index in range splices that child out, keeping the order; any other index changes nothing. */
  lemma RemoveChildSpec(children: seq<Child>, index: int)
    ensures 0 <= index < |children| ==>
      RemoveChild(children, index) == children[..index] + children[index + 1..]
      && |RemoveChild(children, index)| == |children| - 1
    ensures !(0 <= index < |children|) ==> RemoveChild(children, index) == children
  {
    WithoutPositionSplices(children, index, 0);
  }

  /** The edits `updateChild` makes: a field of the child and its new value. */
  datatype ChildEdit = SetName(name: string) | SetDob(dob: string) | SetCost(cost: Option<real>)

  function Apply(c: Child, edit: ChildEdit): Child
  {
    match edit
    case SetName(v) => c.(name := v)
    case SetDob(v) => c.(dob := v)
    case SetCost(v) => c.(cost := v)
  }

  /**
   * `updateChild`: copy the children into a new array, replace the child at
   * `index` by a copy with one field changed, and return the new list.  The
   * input list itself is a value and is not changed.
   */
  method UpdateChild(children: seq<Child>, index: nat, edit: ChildEdit) returns (updated: seq<Child>)
    requires index < |children|
    ensures |updated| == |children|
    ensures forall j :: 0 <= j < |children| && j != index ==> updated[j] == children[j]
    ensures updated[index].name == (if edit.SetName? then edit.name else children[index].name)
    ensures updated[index].dob == (if edit.SetDob? then edit.dob else children[index].dob)
    ensures updated[index].cost == (if edit.SetCost? then edit.cost else children[index].cost)
  {
    var newChildren := new Child[|children|](j requires 0 <= j < |children| => children[j]);
    newChildren[index] := Apply(newChildren[index], edit);
    updated := newChildren[..];
  }

  /** Adding a child raises the education total by the default cost. */
  lemma AddChildTotal(children: seq<Child>)
    ensures EducationTotal(AddChild(children)) == EducationTotal(children) + DEFAULT_EDUCATION_COST
  {
    assert AddChild(children)[..|children|] == children;
  }

  /** Removing the child at an index lowers the education total by that child's cost. */
  lemma RemoveChildTotal(children: seq<Child>, index: int)
    requires 0 <= index < |children|
    ensures EducationTotal(RemoveChild(children, index)) == EducationTotal(children) - ChildCost(children[index])
  {
    RemoveChildSpec(children, index);
    var x := children[index];
    assert children == children[..index] + [x] + children[index + 1..];
    SumOfAppend(children[..index] + [x], children[index + 1..], ChildCost);
    SumOfAppend(children[..index], [x], ChildCost);
    SumOfAppend(children[..index], children[index + 1..], ChildCost);
    assert [x][..0] == [];
  }
}
