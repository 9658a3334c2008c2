// ui/worker/lib/config-changes.ts applyJSONPatch: a restricted interpreter of RFC 6902
// patches that also reports what each operation replaced.
module JsonPatch {
  import opened Text
  import opened JsonPointer

  /** JSON values; numbers are opaque, objects have no order of members. */
  datatype Json =
    | Null
    | Bool(b: bool)
    | Num(n: int)
    | Str(s: string)
    | Arr(items: seq<Json>)
    | Obj(members: map<string, Json>)

  datatype OpKind = Add | Remove | Replace | Test | Unsupported
  datatype Operation = Operation(op: OpKind, path: string, value: Option<Json>)
  datatype DiffItem = DiffItem(op: OpKind, path: string, before: Option<Json>, after: Option<Json>)

  datatype PatchError =
    | EmptyPatch | TooManyOperations | PatchTooLarge | InvalidPointer | RootRemoved
    | NotSupported(index: nat) | UnsafePath(index: nat) | TestFailed(index: nat) | ValueRequired(index: nat)
    | MissingParent(index: nat) | ParentNotContainer(index: nat) | MissingValue(index: nat)
    | InvalidArrayIndex(index: nat) | ArrayIndexOutOfRange(index: nat)
    | InheritedName(index: nat)

  datatype Result<+T> = Ok(value: T) | Err(error: PatchError)

  datatype Patched = Patched(value: Json, diff: seq<DiffItem>)

  const MAX_PATCH_OPERATIONS := 100
  const MAX_PATCH_BYTES := 256 * 1024
  const MAX_SAFE_INTEGER := 9007199254740991
  const UNSAFE_SEGMENTS: set<string> := {"__proto__", "prototype", "constructor"}

  /** What every object inherits from Object.prototype, all functions (ECMA-262, sections
      20.1.3 and B.2.2), apart from the unsafe segments. */
  const INHERITED_NAMES: set<string> := {
    "hasOwnProperty", "isPrototypeOf", "propertyIsEnumerable", "toLocaleString", "toString", "valueOf",
    "__defineGetter__", "__defineSetter__", "__lookupGetter__", "__lookupSetter__"
  }

  // ---------------------------------------------------------- equality

  /** deepEqual. */
  predicate DeepEqual(left: Json, right: Json) {
    match (left, right)
    case (Arr(xs), Arr(ys)) => |xs| == |ys| && forall i :: 0 <= i < |xs| ==> DeepEqual(xs[i], ys[i])
    case (Obj(m), Obj(n)) => |m| == |n| && forall k :: k in m ==> k in n && DeepEqual(m[k], n[k])
    case _ => left == right
  }

  /** It is equality of JSON values. */
  lemma {:induction false} DeepEqualIsEquality(left: Json, right: Json)
    ensures DeepEqual(left, right) <==> left == right
  {
    if left.Arr? && right.Arr? {
      forall i | 0 <= i < |left.items| && i < |right.items|
        ensures DeepEqual(left.items[i], right.items[i]) <==> left.items[i] == right.items[i]
      {
        DeepEqualIsEquality(left.items[i], right.items[i]);
      }
    } else if left.Obj? && right.Obj? {
      var m, n := left.members, right.members;
      forall k | k in m && k in n ensures DeepEqual(m[k], n[k]) <==> m[k] == n[k] {
        DeepEqualIsEquality(m[k], n[k]);
      }
      if DeepEqual(left, right) {
        SameKeys(m.Keys, n.Keys);
      }
    }
  }

  lemma SameKeys(a: set<string>, b: set<string>)
    requires |a| == |b| && a <= b
    ensures a == b
  {
    assert b == a + (b - a);
  }

  // ------------------------------------------------- array positions

  predicate IsDigit(c: char) { '0' <= c <= '9' }

  /** The pattern for array indices: no sign, no leading zero. */
  predicate IsIndex(key: string) {
    key != [] && (forall i :: 0 <= i < |key| ==> IsDigit(key[i])) && (key[0] == '0' ==> |key| == 1)
  }

  function DigitValue(c: char): nat
    requires IsDigit(c)
  {
    c as int - '0' as int
  }

  function DecimalValue(key: string): nat
    requires forall i :: 0 <= i < |key| ==> IsDigit(key[i])
  {
    if key == [] then 0
    else DecimalValue(key[..|key| - 1]) * 10 + DigitValue(key[|key| - 1])
  }

  function ArrayOffset(key: string, length: nat, allowEnd: bool, index: nat): Result<nat> {
    if !IsIndex(key) then Err(InvalidArrayIndex(index))
    else
      var offset := DecimalValue(key);
      if offset > MAX_SAFE_INTEGER || offset > length || (!allowEnd && offset == length) then Err(ArrayIndexOutOfRange(index))
      else Ok(offset)
  }

  lemma {:induction false} DigitsAreAnIndex(n: nat)
    ensures IsIndex(Digits(n)) && DecimalValue(Digits(n)) == n
    ensures n > 0 ==> Digits(n)[0] != '0'
  {
    if n >= 10 {
      DigitsAreAnIndex(n / 10);
      var s := Digits(n);
      assert s[..|s| - 1] == Digits(n / 10);
      assert s[0] == Digits(n / 10)[0];
    }
  }

  // -------------------------------------------------- moving in a tree

  predicate Container(v: Json) { v.Arr? || v.Obj? }

  /** One turn of the loop in resolveParent. */
  function Child(v: Json, segment: string, index: nat): Result<Json> {
    if v.Arr? then
      var offset := ArrayOffset(segment, |v.items|, false, index);
      if offset.Ok? then Ok(v.items[offset.value]) else Err(offset.error)
    else if v.Obj? && segment in v.members then Ok(v.members[segment])
    else Err(MissingParent(index))
  }

  function At(root: Json, segments: seq<string>, index: nat): Result<Json> {
    if segments == [] then Ok(root)
    else
      var c := Child(root, segments[0], index);
      if c.Ok? then At(c.value, segments[1..], index) else c
  }

  /** The container that holds the last segment. */
  function Parent(root: Json, segments: seq<string>, index: nat): Result<Json>
    requires segments != []
  {
    var p := At(root, segments[..|segments| - 1], index);
    if p.Ok? && !Container(p.value) then Err(ParentNotContainer(index)) else p
  }

  function WithChild(v: Json, segment: string, c: Json): Json
    requires Child(v, segment, 0).Ok?
  {
    if v.Arr? then Arr(v.items[ArrayOffset(segment, |v.items|, false, 0).value := c])
    else Obj(v.members[segment := c])
  }

  /** root with the value at segments replaced. */
  function Put(root: Json, segments: seq<string>, c: Json): Json
    requires At(root, segments, 0).Ok?
  {
    if segments == [] then c
    else WithChild(root, segments[0], Put(Child(root, segments[0], 0).value, segments[1..], c))
  }

  lemma {:induction false} AtAnyIndex(root: Json, segments: seq<string>, i: nat, j: nat)
    ensures At(root, segments, i).Ok? <==> At(root, segments, j).Ok?
    ensures At(root, segments, i).Ok? ==> At(root, segments, i) == At(root, segments, j)
  {
    if segments != [] {
      var c := Child(root, segments[0], i);
      assert c.Ok? <==> Child(root, segments[0], j).Ok?;
      if c.Ok? { AtAnyIndex(c.value, segments[1..], i, j); }
    }
  }

  /** Reading back what was put, putting twice, and putting back what was there. */
  lemma {:induction false} PutLaws(root: Json, segments: seq<string>, c: Json, d: Json)
    requires At(root, segments, 0).Ok?
    ensures At(Put(root, segments, c), segments, 0) == Ok(c)
    ensures Put(Put(root, segments, c), segments, d) == Put(root, segments, d)
    ensures Put(root, segments, At(root, segments, 0).value) == root
  {
    if segments != [] {
      var child := Child(root, segments[0], 0).value;
      PutLaws(child, segments[1..], c, d);
      var put := Put(root, segments, c);
      assert Child(put, segments[0], 0) == Ok(Put(child, segments[1..], c));
      if root.Arr? {
        var offset := ArrayOffset(segments[0], |root.items|, false, 0).value;
        assert root.items[offset := child] == root.items;
      } else {
        assert root.members[segments[0] := child] == root.members;
      }
    }
  }

  // ---------------------------------------------- one operation at its parent

  /** Reading the member finds an inherited function. */
  predicate Inherits(parent: Json, key: string) { parent.Obj? && key !in parent.members && key in INHERITED_NAMES }

  /** existingValue; None stands for undefined, and for what only Inherits. */
  function ExistingValue(parent: Json, key: string, op: OpKind, index: nat): Result<Option<Json>>
    requires Container(parent)
  {
    if parent.Arr? then
      if op.Add? && key == "-" then Ok(None)
      else
        var offset := ArrayOffset(key, |parent.items|, op.Add?, index);
        if offset.Err? then Err(offset.error)
        else if offset.value < |parent.items| then Ok(Some(parent.items[offset.value])) else Ok(None)
    else if key in parent.members then Ok(Some(parent.members[key]))
    else if op.Add? then Ok(None)
    else Err(MissingValue(index))
  }

  /** setValue. */
  function SetValue(parent: Json, key: string, value: Json, add: bool, index: nat): Result<Json>
    requires Container(parent)
  {
    if parent.Arr? then
      if add && key == "-" then Ok(Arr(parent.items + [value]))
      else
        var offset := ArrayOffset(key, |parent.items|, add, index);
        if offset.Err? then Err(offset.error)
        else if add then Ok(Arr(parent.items[..offset.value] + [value] + parent.items[offset.value..]))
        else Ok(Arr(parent.items[offset.value := value]))
    else Ok(Obj(parent.members[key := value]))
  }

  /** removeValue. */
  function RemoveValue(parent: Json, key: string, index: nat): Result<Json>
    requires Container(parent)
  {
    if parent.Arr? then
      var offset := ArrayOffset(key, |parent.items|, false, index);
      if offset.Err? then Err(offset.error)
      else Ok(Arr(parent.items[..offset.value] + parent.items[offset.value + 1..]))
    else if key !in parent.members then Err(MissingValue(index))
    else Ok(Obj(parent.members - {key}))
  }

  datatype Step = Step(value: Json, item: DiffItem)

  /** What an operation does to the container it names, and the diff it reports. */
  function Edit(parent: Json, key: string, o: Operation, index: nat): Result<Step>
    requires Container(parent)
  {
    var before := ExistingValue(parent, key, o.op, index);
    if before.Err? then Err(before.error)
    else if o.op.Test? then
      if o.value.None? then Err(ValueRequired(index))
      else if before.value.None? || !DeepEqual(before.value.value, o.value.value) then Err(TestFailed(index))
      else Ok(Step(parent, DiffItem(Test, o.path, before.value, None)))
    else if o.op.Remove? then
      var removed := RemoveValue(parent, key, index);
      if removed.Err? then Err(removed.error) else Ok(Step(removed.value, DiffItem(Remove, o.path, before.value, None)))
    else if o.value.None? then Err(ValueRequired(index))
    else
      var put := SetValue(parent, key, o.value.value, o.op.Add?, index);
      // cloneJSON(before) cannot copy a function
      if put.Err? then Err(put.error) else if Inherits(parent, key) then Err(InheritedName(index)) else Ok(Step(put.value, DiffItem(o.op, o.path, before.value, o.value)))
  }

  function RootStep(value: Json, o: Operation, index: nat): Result<Step> {
    if o.op.Remove? then Err(RootRemoved)
    else if o.op.Test? then
      if o.value.None? || !DeepEqual(value, o.value.value) then Err(TestFailed(index))
      else Ok(Step(value, DiffItem(Test, "", Some(value), None)))
    else if o.value.None? then Err(ValueRequired(index))
    else Ok(Step(o.value.value, DiffItem(o.op, "", Some(value), o.value)))
  }

  /** One operation below the root: the container it names is edited and put back. */
  function ApplyAt(value: Json, segments: seq<string>, o: Operation, index: nat): Result<Step>
    requires segments != []
  {
    var parent := Parent(value, segments, index);
    if parent.Err? then Err(parent.error)
    else
      var step := Edit(parent.value, segments[|segments| - 1], o, index);
      if step.Err? then step
      else
        AtAnyIndex(value, segments[..|segments| - 1], index, 0);
        Ok(Step(Put(value, segments[..|segments| - 1], step.value.value), step.value.item))
  }

  predicate Unsafe(segments: seq<string>) { exists i :: 0 <= i < |segments| && segments[i] in UNSAFE_SEGMENTS }

  /** One operation on the whole document. */
  function Apply(value: Json, o: Operation, index: nat): Result<Step> {
    if o.op.Unsupported? then Err(NotSupported(index))
    else
      var segments := PointerSegments(o.path);
      if segments.None? then Err(InvalidPointer)
      else if Unsafe(segments.value) then Err(UnsafePath(index))
      else if segments.value == [] then RootStep(value, o, index)
      else ApplyAt(value, segments.value, o, index)
  }

  function Extend(p: Patched, step: Result<Step>): Result<Patched> {
    if step.Err? then Err(step.error) else Ok(Patched(step.value.value, p.diff + [step.value.item]))
  }

  /** The first n operations of a patch, numbered from start. */
  function Run(apply: (Json, Operation, nat) -> Result<Step>, input: Json, patch: seq<Operation>, n: nat, start: nat): Result<Patched>
    requires n <= |patch|
  {
    if n == 0 then Ok(Patched(input, []))
    else
      var r := Run(apply, input, patch, n - 1, start);
      if r.Err? then r else Extend(r.value, apply(r.value.value, patch[n - 1], start + n - 1))
  }

  /** applyJSONPatch; bytes is the length of the patch as text. */
  function Applied(input: Json, patch: seq<Operation>, bytes: nat): Result<Patched> {
    if patch == [] then Err(EmptyPatch)
    else if |patch| > MAX_PATCH_OPERATIONS then Err(TooManyOperations)
    else if bytes > MAX_PATCH_BYTES then Err(PatchTooLarge)
    else Run(Apply, input, patch, |patch|, 0)
  }

  // ---------------------------------------------------- the loops

  method ResolveParent(root: Json, segments: seq<string>, index: nat) returns (r: Result<Json>)
    requires segments != []
    ensures r == Parent(root, segments, index)
  {
    var current, front := root, segments[..|segments| - 1];
    for i := 0 to |front|
      invariant At(current, front[i..], index) == At(root, front, index)
    {
      var c := Child(current, front[i], index);
      if c.Err? {
        return c;
      }
      assert front[i..][1..] == front[i + 1..];
      current := c.value;
    }
    r := if Container(current) then Ok(current) else Err(ParentNotContainer(index));
  }

  method ApplyOperation(value: Json, o: Operation, index: nat) returns (r: Result<Step>)
    ensures r == Apply(value, o, index)
  {
    if o.op.Unsupported? {
      return Err(NotSupported(index));
    }
    var pointer := PointerSegments(o.path);
    if pointer.None? {
      return Err(InvalidPointer);
    }
    var segments := pointer.value;
    if Unsafe(segments) {
      return Err(UnsafePath(index));
    }
    if segments == [] {
      return RootStep(value, o, index);
    }
    var parent := ResolveParent(value, segments, index);
    if parent.Err? {
      return Err(parent.error);
    }
    var front := segments[..|segments| - 1];
    var step := Edit(parent.value, segments[|segments| - 1], o, index);
    if step.Err? {
      return step;
    }
    AtAnyIndex(value, front, index, 0);
    r := Ok(Step(Put(value, front, step.value.value), step.value.item));
  }

  /** apply is one operation on the whole document. */
  ghost predicate Computes(apply: (Json, Operation, nat) -> Result<Step>) {
    forall v, o, i {:trigger Apply(v, o, i)} :: apply(v, o, i) == Apply(v, o, i)
  }

  lemma ApplyComputes()
    ensures Computes(Apply)
  {
  }

  method ApplyOne(value: Json, o: Operation, index: nat, ghost apply: (Json, Operation, nat) -> Result<Step>) returns (r: Result<Step>)
    requires Computes(apply)
    ensures r == apply(value, o, index)
  {
    r := ApplyOperation(value, o, index);
  }

  /** The loop of applyJSONPatch. */
  method RunPatch(input: Json, patch: seq<Operation>, ghost apply: (Json, Operation, nat) -> Result<Step>) returns (r: Result<Patched>)
    requires Computes(apply)
    ensures r == Run(apply, input, patch, |patch|, 0)
  {
    var value, diff := input, [];
    for index := 0 to |patch|
      invariant Run(apply, input, patch, index, 0) == Ok(Patched(value, diff))
    {
      var step := ApplyOne(value, patch[index], index, apply);
      RunMore(apply, input, patch, index, Patched(value, diff), step);
      if step.Err? {
        return Err(step.error);
      }
      value, diff := step.value.value, diff + [step.value.item];
    }
    r := Ok(Patched(value, diff));
  }

  method ApplyJSONPatch(input: Json, patch: seq<Operation>, bytes: nat) returns (r: Result<Patched>)
    ensures r == Applied(input, patch, bytes)
  {
    if patch == [] {
      return Err(EmptyPatch);
    }
    if |patch| > MAX_PATCH_OPERATIONS {
      return Err(TooManyOperations);
    }
    if bytes > MAX_PATCH_BYTES {
      return Err(PatchTooLarge);
    }
    ApplyComputes();
    r := RunPatch(input, patch, Apply);
  }

  lemma RunMore(apply: (Json, Operation, nat) -> Result<Step>, input: Json, patch: seq<Operation>, n: nat, p: Patched, step: Result<Step>)
    requires n < |patch| && Run(apply, input, patch, n, 0) == Ok(p) && step == apply(p.value, patch[n], n)
    ensures step.Ok? ==> Run(apply, input, patch, n + 1, 0) == Ok(Patched(step.value.value, p.diff + [step.value.item]))
    ensures step.Err? ==> Run(apply, input, patch, |patch|, 0) == Err(step.error)
  {
    if step.Err? { RunFails(apply, input, patch, n + 1, |patch|, 0); }
  }

  lemma {:induction false} RunFails(apply: (Json, Operation, nat) -> Result<Step>, input: Json, patch: seq<Operation>, m: nat, n: nat, start: nat)
    requires m <= n <= |patch| && Run(apply, input, patch, m, start).Err?
    ensures Run(apply, input, patch, n, start) == Run(apply, input, patch, m, start)
  {
    if m < n { RunFails(apply, input, patch, m, n - 1, start); }
  }

  // ------------------------------------------------------------- undo

  /** Takes one reported change back, at the container it was made in. */
  function UndoEdit(parent: Json, key: string, item: DiffItem): Result<Json>
    requires Container(parent)
  {
    match item.op
    case Remove => if item.before.None? then Err(MissingValue(0)) else SetValue(parent, key, item.before.value, true, 0)
    case Replace => if item.before.None? then Err(MissingValue(0)) else SetValue(parent, key, item.before.value, false, 0)
    case Add =>
      if parent.Arr? && key == "-" then
        if parent.items == [] then Err(MissingValue(0)) else Ok(Arr(parent.items[..|parent.items| - 1]))
      else if parent.Arr? || item.before.None? then RemoveValue(parent, key, 0)
      else SetValue(parent, key, item.before.value, false, 0)
    case _ => Ok(parent)
  }

  function UndoItem(value: Json, item: DiffItem): Result<Json> {
    var segments := PointerSegments(item.path);
    if segments.None? then Err(InvalidPointer)
    else if segments.value == [] then
      if item.op.Test? then Ok(value) else if item.before.Some? then Ok(item.before.value) else Err(MissingValue(0))
    else
      var parent := Parent(value, segments.value, 0);
      if parent.Err? then parent
      else
        var front := segments.value[..|segments.value| - 1];
        var undone := UndoEdit(parent.value, segments.value[|front|], item);
        if undone.Err? then undone else Ok(Put(value, front, undone.value))
  }

  /** The diff list run backwards, its last item first. */
  function UndoAll(value: Json, diff: seq<DiffItem>): Result<Json>
    decreases |diff|
  {
    if diff == [] then Ok(value)
    else
      var undone := UndoItem(value, diff[|diff| - 1]);
      if undone.Err? then undone else UndoAll(undone.value, diff[..|diff| - 1])
  }

  lemma UndoEditRestores(parent: Json, key: string, o: Operation, index: nat)
    requires Container(parent) && !o.op.Unsupported? && Edit(parent, key, o, index).Ok?
    ensures var step := Edit(parent, key, o, index).value;
            Container(step.value) && UndoEdit(step.value, key, step.item) == Ok(parent)
  {
    var step := Edit(parent, key, o, index).value;
    if parent.Arr? {
      UndoArrayEdit(parent.items, key, o, index);
    } else {
      var m := parent.members;
      assert !o.op.Test? ==> UndoEdit(step.value, key, step.item).value.members == m;
    }
  }

  lemma UndoArrayEdit(items: seq<Json>, key: string, o: Operation, index: nat)
    requires !o.op.Unsupported? && Edit(Arr(items), key, o, index).Ok?
    ensures var step := Edit(Arr(items), key, o, index).value;
            step.value.Arr? && UndoEdit(step.value, key, step.item) == Ok(Arr(items))
  {
    var step := Edit(Arr(items), key, o, index).value;
    match o.op {
      case Add =>
        if key == "-" {
          assert step.value.items[..|items|] == items;
        } else {
          var k := ArrayOffset(key, |items|, true, index).value;
          assert step.value.items[..k] + step.value.items[k + 1..] == items;
        }
      case Remove =>
        var k := ArrayOffset(key, |items|, false, index).value;
        assert step.value.items[..k] + [items[k]] + step.value.items[k..] == items;
      case Replace =>
        var k := ArrayOffset(key, |items|, false, index).value;
        assert step.value.items[k := items[k]] == items;
      case Test =>
    }
  }

  lemma UndoItemRestores(value: Json, o: Operation, index: nat)
    requires Apply(value, o, index).Ok?
    ensures var step := Apply(value, o, index).value; UndoItem(step.value, step.item) == Ok(value)
  {
    var segments := PointerSegments(o.path).value;
    if segments == [] {
      assert PointerSegments("") == Some([]);
      PointerOfSegments(o.path);
    } else {
      UndoBelowRoot(value, segments, o, index);
    }
  }

  lemma UndoBelowRoot(value: Json, segments: seq<string>, o: Operation, index: nat)
    requires PointerSegments(o.path) == Some(segments) && segments != [] && !o.op.Unsupported?
    requires ApplyAt(value, segments, o, index).Ok?
    ensures var step := ApplyAt(value, segments, o, index).value; UndoItem(step.value, step.item) == Ok(value)
  {
    var front, key := segments[..|segments| - 1], segments[|segments| - 1];
    var parent := Parent(value, segments, index).value;
    AtAnyIndex(value, front, index, 0);
    var edited := Edit(parent, key, o, index).value;
    UndoEditRestores(parent, key, o, index);
    PutLaws(value, front, edited.value, parent);
    EditKeepsPath(parent, key, o, index);
  }

  lemma EditKeepsPath(parent: Json, key: string, o: Operation, index: nat)
    requires Container(parent) && Edit(parent, key, o, index).Ok?
    ensures Edit(parent, key, o, index).value.item.path == o.path
  {
  }

  /** Undo: for every accepted patch, the reported diff run backwards restores the input. */
  lemma {:induction false} UndoRestores(apply: (Json, Operation, nat) -> Result<Step>, input: Json, patch: seq<Operation>, n: nat, start: nat)
    requires forall v, o, i :: apply(v, o, i).Ok? ==> UndoItem(apply(v, o, i).value.value, apply(v, o, i).value.item) == Ok(v)
    requires n <= |patch| && Run(apply, input, patch, n, start).Ok?
    ensures var r := Run(apply, input, patch, n, start).value; UndoAll(r.value, r.diff) == Ok(input) && |r.diff| == n
  {
    if n > 0 {
      UndoRestores(apply, input, patch, n - 1, start);
      var before := Run(apply, input, patch, n - 1, start).value;
      var step := apply(before.value, patch[n - 1], start + n - 1).value;
      assert UndoItem(step.value, step.item) == Ok(before.value);
      assert (before.diff + [step.item])[..|before.diff|] == before.diff;
    }
  }

  /** For every accepted patch, whatever it contains. */
  lemma AcceptedPatchUndone(input: Json, patch: seq<Operation>, bytes: nat)
    requires Applied(input, patch, bytes).Ok?
    ensures var r := Applied(input, patch, bytes).value; UndoAll(r.value, r.diff) == Ok(input) && |r.diff| == |patch|
  {
    forall v, o, i: nat | Apply(v, o, i).Ok?
      ensures UndoItem(Apply(v, o, i).value.value, Apply(v, o, i).value.item) == Ok(v)
    {
      UndoItemRestores(v, o, i);
    }
    UndoRestores(Apply, input, patch, |patch|, 0);
  }

  // ------------------------------------------------ what a patch means

  predicate SafePath(segments: seq<string>) {
    forall i :: 0 <= i < |segments| ==> segments[i] != "__proto__" && segments[i] != "prototype" && segments[i] != "constructor"
  }

  /** The key is the decimal numeral of i, and i is below the bound. */
  predicate Indexes(key: string, i: nat, bound: nat) { key == Digits(i) && i < bound && i <= 9007199254740991 }

  ghost predicate IsPlace(key: string, bound: nat) { exists i: nat :: Indexes(key, i, bound) }

  /** The child of a value that a segment names. */
  ghost predicate Names(v: Json, segment: string, c: Json) {
    match v
    case Obj(m) => segment in m && c == m[segment]
    case Arr(items) => exists i: nat {:trigger Indexes(segment, i, |items|)} :: Indexes(segment, i, |items|) && c == items[i]
    case _ => false
  }

  lemma ChildMeaning(v: Json, segment: string, c: Json, index: nat)
    ensures Child(v, segment, index) == Ok(c) <==> Names(v, segment, c)
  {
    if v.Arr? {
      OffsetIff(segment, |v.items|, false, |v.items|, index);
    }
  }

  /** Only numerals without sign and leading zeros are indices, and each is that of its value. */
  lemma OffsetIff(key: string, length: nat, allowEnd: bool, bound: nat, index: nat)
    requires bound == if allowEnd then length + 1 else length
    ensures forall i: nat {:trigger Indexes(key, i, bound)} :: ArrayOffset(key, length, allowEnd, index) == Ok(i) <==> Indexes(key, i, bound)
    ensures var offset := ArrayOffset(key, length, allowEnd, index); offset.Ok? ==> Indexes(key, offset.value, bound)
  {
    if IsIndex(key) { IndexIsItsDigits(key); }
    forall i: nat ensures ArrayOffset(key, length, allowEnd, index) == Ok(i) <==> Indexes(key, i, bound) { DigitsAreAnIndex(i); }
  }

  lemma {:induction false} IndexIsItsDigits(key: string)
    requires IsIndex(key)
    ensures key == Digits(DecimalValue(key))
    ensures key[0] != '0' ==> DecimalValue(key) > 0
  {
    var front, last := key[..|key| - 1], key[|key| - 1];
    assert key == front + [last];
    if front == [] {
      assert DecimalValue(key) == DigitValue(last) && DigitChar(DigitValue(last)) == last;
    } else {
      IndexIsItsDigits(front);
      var n := DecimalValue(front);
      assert DecimalValue(key) == n * 10 + DigitValue(last);
      assert (n * 10 + DigitValue(last)) / 10 == n && (n * 10 + DigitValue(last)) % 10 == DigitValue(last);
      assert DigitChar(DigitValue(last)) == last;
    }
  }

  lemma SafeIff(segments: seq<string>)
    ensures SafePath(segments) <==> !Unsafe(segments)
  {
  }

  /** A test succeeds exactly when its path is safe and the value it names is the value it
      gives. */
  lemma TestMeaning(value: Json, o: Operation, index: nat, segments: seq<string>)
    requires o.op.Test? && PointerSegments(o.path) == Some(segments)
    ensures Apply(value, o, index).Ok? <==> SafePath(segments) && o.value.Some? && At(value, segments, index) == Ok(o.value.value)
    ensures Apply(value, o, index).Ok? ==> Apply(value, o, index).value == Step(value, DiffItem(Test, o.path, o.value, None))
  {
    SafeIff(segments);
    if segments != [] {
      TestBelowRoot(value, o, index, segments);
    } else {
      PointerOfSegments(o.path);
      if o.value.Some? { DeepEqualIsEquality(value, o.value.value); }
    }
  }

  lemma TestBelowRoot(value: Json, o: Operation, index: nat, segments: seq<string>)
    requires o.op.Test? && segments != []
    ensures ApplyAt(value, segments, o, index).Ok? <==> o.value.Some? && At(value, segments, index) == Ok(o.value.value)
    ensures ApplyAt(value, segments, o, index).Ok? ==>
              ApplyAt(value, segments, o, index).value == Step(value, DiffItem(Test, o.path, o.value, None))
  {
    var front, key := segments[..|segments| - 1], segments[|segments| - 1];
    assert front + [key] == segments;
    AtSplit(value, front, key, index);
    var parent := Parent(value, segments, index);
    if parent.Ok? {
      TestAtParent(parent.value, key, o, index);
      PutBack(value, front, index);
    }
  }

  lemma PutBack(root: Json, front: seq<string>, index: nat)
    requires At(root, front, index).Ok?
    ensures At(root, front, 0).Ok? && Put(root, front, At(root, front, index).value) == root
  {
    AtAnyIndex(root, front, index, 0);
    PutLaws(root, front, root, root);
  }

  lemma TestAtParent(parent: Json, key: string, o: Operation, index: nat)
    requires Container(parent) && o.op.Test?
    ensures Edit(parent, key, o, index).Ok? <==> o.value.Some? && Child(parent, key, index) == Ok(o.value.value)
    ensures Edit(parent, key, o, index).Ok? ==> Edit(parent, key, o, index).value == Step(parent, DiffItem(Test, o.path, o.value, None))
  {
    var before := ExistingValue(parent, key, Test, index);
    if before.Ok? && before.value.Some? && o.value.Some? {
      DeepEqualIsEquality(before.value.value, o.value.value);
    }
  }

  lemma {:induction false} AtSplit(root: Json, front: seq<string>, last: string, index: nat)
    ensures At(root, front + [last], index)
              == if At(root, front, index).Ok? then Child(At(root, front, index).value, last, index) else At(root, front, index)
  {
    if front == [] {
      assert front + [last] == [last];
    } else {
      assert (front + [last])[1..] == front[1..] + [last];
      var c := Child(root, front[0], index);
      if c.Ok? { AtSplit(c.value, front[1..], last, index); }
    }
  }

  /** What add and replace put under a path is what is found there; - names the last item. */
  lemma ReadsBack(value: Json, o: Operation, index: nat, front: seq<string>, key: string)
    requires (o.op.Add? || o.op.Replace?) && PointerSegments(o.path) == Some(front + [key])
    requires Apply(value, o, index).Ok?
    ensures var after := Apply(value, o, index).value.value;
            && At(after, front, 0).Ok?
            && var parent := At(after, front, 0).value;
               if parent.Arr? && key == "-" then parent.items != [] && parent.items[|parent.items| - 1] == o.value.value
               else At(after, front + [key], 0) == Ok(o.value.value)
  {
    BelowRoot(value, o, index, front, key);
    var after := Apply(value, o, index).value.value;
    EditReadsBack(At(value, front, index).value, key, o, index);
    AtSplit(after, front, key, 0);
  }

  lemma EditReadsBack(parent: Json, key: string, o: Operation, index: nat)
    requires (o.op.Add? || o.op.Replace?) && Container(parent) && Edit(parent, key, o, index).Ok?
    ensures var after := Edit(parent, key, o, index).value.value;
            if after.Arr? && key == "-" then after.items != [] && after.items[|after.items| - 1] == o.value.value
            else Child(after, key, 0) == Ok(o.value.value)
  {
  }

  /** The document becomes one with another container at front, and nothing else changes. */
  ghost predicate ChangedAt(value: Json, front: seq<string>, after: Json) {
    && At(value, front, 0).Ok? && Container(At(value, front, 0).value) && At(after, front, 0).Ok?
    && after == Put(value, front, At(after, front, 0).value)
  }

  /** Two paths part before the shorter one ends. */
  ghost predicate Diverge(p: seq<string>, q: seq<string>) {
    exists i :: 0 <= i < |p| && i < |q| && p[i] != q[i]
  }

  /** What is put at one path is not seen along another. */
  lemma {:induction false} PutKeepsOthers(root: Json, p: seq<string>, q: seq<string>, c: Json, index: nat)
    requires At(root, p, 0).Ok? && Diverge(p, q)
    ensures At(Put(root, p, c), q, index) == At(root, q, index)
  {
    var child := Child(root, p[0], 0).value;
    if p[0] == q[0] {
      assert Child(Put(root, p, c), q[0], index) == Ok(Put(child, p[1..], c));
      var i :| 0 <= i < |p| && i < |q| && p[i] != q[i];
      assert p[1..][i - 1] != q[1..][i - 1];
      PutKeepsOthers(child, p[1..], q[1..], c, index);
    } else {
      SiblingKept(root, p[0], q[0], Put(child, p[1..], c), index);
    }
  }

  lemma SiblingKept(v: Json, a: string, b: string, c: Json, index: nat)
    requires Child(v, a, 0).Ok? && a != b
    ensures Child(WithChild(v, a, c), b, index) == Child(v, b, index)
  {
    if v.Arr? {
      OffsetIff(a, |v.items|, false, |v.items|, 0);
      OffsetIff(b, |v.items|, false, |v.items|, index);
      var i := ArrayOffset(a, |v.items|, false, 0).value;
      assert Indexes(a, i, |v.items|) && !Indexes(b, i, |v.items|);
    }
  }

  /** What is left of a container when its child key is taken out: an object without the
      member, or an array whose later items have moved up by one. */
  ghost predicate Without(parent: Json, key: string, after: Json)
    requires Container(parent)
  {
    if parent.Obj? then
      && after.Obj? && key in parent.members && after.members.Keys == parent.members.Keys - {key}
      && forall k :: k in after.members ==> after.members[k] == parent.members[k]
    else after.Arr? && exists i: nat {:trigger Indexes(key, i, |parent.items|)} :: Indexes(key, i, |parent.items|) && ItemTaken(parent.items, i, after.items)
  }

  ghost predicate ItemTaken(items: seq<Json>, i: nat, after: seq<Json>) {
    && i < |items| && |after| == |items| - 1
    && forall j :: 0 <= j < |after| ==> after[j] == items[if j < i then j else j + 1]
  }

  lemma RemoveAtParent(parent: Json, key: string, o: Operation, index: nat)
    requires Container(parent) && o.op.Remove?
    ensures Edit(parent, key, o, index).Ok? <==> Child(parent, key, index).Ok?
    ensures Edit(parent, key, o, index).Ok? ==>
              var step := Edit(parent, key, o, index).value;
              Without(parent, key, step.value) && step.item == DiffItem(Remove, o.path, Some(Child(parent, key, index).value), None)
  {
    if parent.Arr? {
      OffsetIff(key, |parent.items|, false, |parent.items|, index);
      var offset := ArrayOffset(key, |parent.items|, false, index);
      if offset.Ok? {
        assert ItemTaken(parent.items, offset.value, Edit(parent, key, o, index).value.value.items);
      }
    }
  }

  /** A removal succeeds exactly where the path is safe and there is a value. It takes out
      that value alone, and reports it. */
  lemma RemoveMeaning(value: Json, o: Operation, index: nat, front: seq<string>, key: string)
    requires o.op.Remove? && PointerSegments(o.path) == Some(front + [key])
    ensures Apply(value, o, index).Ok? <==> SafePath(front + [key]) && At(value, front + [key], index).Ok?
    ensures Apply(value, o, index).Ok? ==>
              var step := Apply(value, o, index).value;
              && ChangedAt(value, front, step.value)
              && Without(At(value, front, 0).value, key, At(step.value, front, 0).value)
              && step.item == DiffItem(Remove, o.path, Some(At(value, front + [key], index).value), None)
  {
    BelowRoot(value, o, index, front, key);
    AtSplit(value, front, key, index);
    var parent := At(value, front, index);
    if parent.Ok? && Container(parent.value) { RemoveAtParent(parent.value, key, o, index); }
  }

  /** Below the root an operation is an edit of the container at front. */
  lemma BelowRoot(value: Json, o: Operation, index: nat, front: seq<string>, key: string)
    requires !o.op.Unsupported? && PointerSegments(o.path) == Some(front + [key])
    ensures At(value, front, index).Ok? <==> At(value, front, 0).Ok?
    ensures At(value, front, index).Ok? ==> At(value, front, index) == At(value, front, 0)
    ensures var parent := At(value, front, index);
            && (Apply(value, o, index).Ok? <==>
                  SafePath(front + [key]) && parent.Ok? && Container(parent.value) && Edit(parent.value, key, o, index).Ok?)
            && (Apply(value, o, index).Ok? ==>
                  var step := Apply(value, o, index).value;
                  && ChangedAt(value, front, step.value)
                  && Edit(parent.value, key, o, index) == Ok(Step(At(step.value, front, 0).value, step.item)))
  {
    var segments := front + [key];
    assert segments[..|segments| - 1] == front;
    SafeIff(segments);
    AtAnyIndex(value, front, index, 0);
    var parent := At(value, front, index);
    if parent.Ok? && Container(parent.value) && Edit(parent.value, key, o, index).Ok? {
      PutLaws(value, front, Edit(parent.value, key, o, index).value.value, parent.value);
    }
  }

  /** The names of members an object cannot be given: it inherits a function under each. */
  predicate Addable(m: map<string, Json>, key: string) {
    key in m
    || (key != "hasOwnProperty" && key != "isPrototypeOf" && key != "propertyIsEnumerable" && key != "toLocaleString"
        && key != "toString" && key != "valueOf" && key != "__defineGetter__" && key != "__defineSetter__"
        && key != "__lookupGetter__" && key != "__lookupSetter__")
  }

  /** Where an add may go: a member of an object, or a place in an array, its end included. */
  ghost predicate CanAdd(parent: Json, key: string) {
    match parent
    case Obj(m) => Addable(m, key)
    case Arr(items) => key == "-" || IsPlace(key, |items| + 1)
    case _ => false
  }

  /** What a container becomes: the member is set, or the item put in and later ones moved
      down by one. */
  ghost predicate WithAdded(parent: Json, key: string, v: Json, after: Json) {
    match parent
    case Obj(m) => && after.Obj? && after.members.Keys == m.Keys + {key} && after.members[key] == v
                   && forall k :: k in m && k != key ==> after.members[k] == m[k]
    case Arr(items) => after.Arr? && exists i: nat {:trigger ItemPut(items, i, v, after.items)} ::
                         (if key == "-" then i == |items| else Indexes(key, i, |items| + 1)) && ItemPut(items, i, v, after.items)
    case _ => false
  }

  ghost predicate ItemPut(items: seq<Json>, i: nat, v: Json, after: seq<Json>) {
    && i <= |items| && |after| == |items| + 1
    && forall j :: 0 <= j < |after| ==> after[j] == if j < i then items[j] else if j == i then v else items[j - 1]
  }

  /** The child that a key names, if any. */
  ghost predicate HeldBefore(parent: Json, key: string, before: Option<Json>) {
    if before.Some? then Names(parent, key, before.value) else forall c :: !Names(parent, key, c)
  }

  lemma AddAtParent(parent: Json, key: string, o: Operation, index: nat)
    requires Container(parent) && o.op.Add?
    ensures Edit(parent, key, o, index).Ok? <==> o.value.Some? && CanAdd(parent, key)
    ensures Edit(parent, key, o, index).Ok? ==>
              var step := Edit(parent, key, o, index).value;
              && WithAdded(parent, key, o.value.value, step.value) && HeldBefore(parent, key, step.item.before)
              && step.item == DiffItem(Add, o.path, step.item.before, o.value)
  {
    if parent.Arr? { AddToArray(parent.items, key, o, index); }
  }

  lemma AddToArray(items: seq<Json>, key: string, o: Operation, index: nat)
    requires o.op.Add?
    ensures Edit(Arr(items), key, o, index).Ok? <==> o.value.Some? && CanAdd(Arr(items), key)
    ensures Edit(Arr(items), key, o, index).Ok? ==>
              var step := Edit(Arr(items), key, o, index).value;
              && WithAdded(Arr(items), key, o.value.value, step.value) && HeldBefore(Arr(items), key, step.item.before)
              && step.item == DiffItem(Add, o.path, step.item.before, o.value)
  {
    OffsetIff(key, |items|, true, |items| + 1, index);
    var offset := ArrayOffset(key, |items|, true, index);
    if key == "-" {
      DashIsNoIndex();
    } else if offset.Ok? {
      OnlyIndex(key, offset.value);
      assert offset.value < |items| ==> Indexes(key, offset.value, |items|);
    }
    if Edit(Arr(items), key, o, index).Ok? {
      var after := Edit(Arr(items), key, o, index).value.value.items;
      assert ItemPut(items, if key == "-" then |items| else offset.value, o.value.value, after);
    }
  }

  lemma OnlyIndex(key: string, i: nat)
    requires key == Digits(i)
    ensures forall j: nat, bound: nat :: Indexes(key, j, bound) ==> j == i
  {
    forall j: nat, bound: nat | Indexes(key, j, bound) ensures j == i { DigitsInjective(i, j); }
  }

  lemma DashIsNoIndex()
    ensures forall j: nat, bound: nat :: !Indexes("-", j, bound)
  {
    forall j: nat, bound: nat ensures !Indexes("-", j, bound) { DigitsPlain(j); }
  }

  /** An add succeeds exactly when its path is safe, a value is given and the container has
      such a place. It changes that container alone, and reports what the key named before. */
  lemma AddMeaning(value: Json, o: Operation, index: nat, front: seq<string>, key: string)
    requires o.op.Add? && PointerSegments(o.path) == Some(front + [key])
    ensures Apply(value, o, index).Ok? <==>
              SafePath(front + [key]) && o.value.Some? && At(value, front, index).Ok? && CanAdd(At(value, front, index).value, key)
    ensures Apply(value, o, index).Ok? ==>
              var step := Apply(value, o, index).value;
              && ChangedAt(value, front, step.value)
              && WithAdded(At(value, front, 0).value, key, o.value.value, At(step.value, front, 0).value)
              && HeldBefore(At(value, front, 0).value, key, step.item.before)
              && step.item == DiffItem(Add, o.path, step.item.before, o.value)
  {
    BelowRoot(value, o, index, front, key);
    var parent := At(value, front, index);
    if parent.Ok? && Container(parent.value) { AddAtParent(parent.value, key, o, index); }
  }

  /** {"op": "add", "path": "/toString"} fails on an object without that member, and only
      there. */
  lemma ToStringRefused(m: map<string, Json>, o: Operation, index: nat)
    requires o.op.Add? && o.value.Some? && o.path == "/toString"
    ensures Apply(Obj(m), o, index).Ok? <==> "toString" in m
  {
    var name := "toString";
    ToStringIsInherited(name);
    PathOfToString(o.path, name);
    AddableOrNot(m, o, name, index);
  }

  lemma PathOfToString(path: string, name: string)
    requires name == "toString" && path == "/toString"
    ensures PointerSegments(path) == Some([name])
  {
    ToStringIsInherited(name);
    PointerOfOne(name);
    assert path == "/" + name;
  }

  lemma ToStringIsInherited(name: string)
    requires name == "toString"
    ensures SafePath([name]) && (forall i :: 0 <= i < |name| ==> name[i] != '~' && name[i] != '/')
    ensures forall m {:trigger Addable(m, name)} :: Addable(m, name) <==> name in m
  {
  }

  lemma AddableOrNot(m: map<string, Json>, o: Operation, name: string, index: nat)
    requires o.op.Add? && o.value.Some? && PointerSegments(o.path) == Some([name]) && SafePath([name])
    ensures Apply(Obj(m), o, index).Ok? <==> Addable(m, name)
  {
    assert [] + [name] == [name];
    AddMeaning(Obj(m), o, index, [], name);
  }

  lemma PointerOfOne(s: string)
    requires forall i :: 0 <= i < |s| ==> s[i] != '~' && s[i] != '/'
    ensures PointerSegments("/" + s) == Some([s])
  {
    SegmentsOfPointer([s]);
    EscapesNothing(s);
    assert Pointer([s]) == "/" + s;
  }

  lemma {:induction false} EscapesNothing(s: string)
    requires forall i :: 0 <= i < |s| ==> s[i] != '~' && s[i] != '/'
    ensures Escape(s) == s
  {
    if s != [] { EscapesNothing(s[1..]); }
  }

  /** What a container becomes: the child that the key names is another one. */
  ghost predicate WithReplaced(parent: Json, key: string, v: Json, after: Json) {
    match parent
    case Obj(m) => && after.Obj? && after.members.Keys == m.Keys && key in m && after.members[key] == v
                   && forall k :: k in m && k != key ==> after.members[k] == m[k]
    case Arr(items) => after.Arr? && exists i: nat {:trigger Indexes(key, i, |items|)} ::
                         Indexes(key, i, |items|) && |after.items| == |items| && ItemSet(items, i, v, after.items)
    case _ => false
  }

  ghost predicate ItemSet(items: seq<Json>, i: nat, v: Json, after: seq<Json>)
    requires |items| == |after|
  {
    forall j :: 0 <= j < |after| ==> after[j] == if j == i then v else items[j]
  }

  lemma ReplaceAtParent(parent: Json, key: string, o: Operation, index: nat)
    requires Container(parent) && o.op.Replace?
    ensures Edit(parent, key, o, index).Ok? <==> o.value.Some? && Child(parent, key, index).Ok?
    ensures Edit(parent, key, o, index).Ok? ==>
              var step := Edit(parent, key, o, index).value;
              && WithReplaced(parent, key, o.value.value, step.value)
              && step.item == DiffItem(Replace, o.path, Some(Child(parent, key, index).value), o.value)
  {
    if parent.Arr? {
      OffsetIff(key, |parent.items|, false, |parent.items|, index);
    }
  }

  /** A replacement succeeds exactly when its path is safe, a value is given and the path
      names a value. It changes that value alone, and reports both. */
  lemma ReplaceMeaning(value: Json, o: Operation, index: nat, front: seq<string>, key: string)
    requires o.op.Replace? && PointerSegments(o.path) == Some(front + [key])
    ensures Apply(value, o, index).Ok? <==> SafePath(front + [key]) && o.value.Some? && At(value, front + [key], index).Ok?
    ensures Apply(value, o, index).Ok? ==>
              var step := Apply(value, o, index).value;
              && ChangedAt(value, front, step.value)
              && WithReplaced(At(value, front, 0).value, key, o.value.value, At(step.value, front, 0).value)
              && step.item == DiffItem(Replace, o.path, Some(At(value, front + [key], index).value), o.value)
  {
    BelowRoot(value, o, index, front, key);
    AtSplit(value, front, key, index);
    var parent := At(value, front, index);
    if parent.Ok? && Container(parent.value) { ReplaceAtParent(parent.value, key, o, index); }
  }

  /** At the root anything but a removal is done if a value is given, a test if it is the
      document; the diff reports the document before and after. */
  lemma RootMeaning(value: Json, o: Operation, index: nat)
    requires o.path == "" && !o.op.Unsupported?
    ensures Apply(value, o, index).Ok? <==> !o.op.Remove? && o.value.Some? && (o.op.Test? ==> o.value.value == value)
    ensures Apply(value, o, index).Ok? ==>
              Apply(value, o, index).value == Step(o.value.value, DiffItem(o.op, "", Some(value), if o.op.Test? then None else o.value))
  {
    if o.value.Some? { DeepEqualIsEquality(value, o.value.value); }
  }

  /** Between 1 and 100 operations and at most 256 KiB of text are taken; a patch of one
      operation does what the operation does. */
  lemma PatchOfOne(input: Json, o: Operation, patch: seq<Operation>, bytes: nat)
    ensures patch == [] || |patch| > 100 || bytes > 262144 ==> Applied(input, patch, bytes).Err?
    ensures bytes <= 262144 ==>
              var step := Apply(input, o, 0);
              Applied(input, [o], bytes) == if step.Err? then Err(step.error) else Ok(Patched(step.value.value, [step.value.item]))
  {
    assert [o][0] == o && |[o]| == 1;
    RunOfOne(Apply, input, [o]);
  }

  lemma RunOfOne(apply: (Json, Operation, nat) -> Result<Step>, input: Json, patch: seq<Operation>)
    requires |patch| == 1
    ensures var step := apply(input, patch[0], 0);
            Run(apply, input, patch, 1, 0) == if step.Err? then Err(step.error) else Ok(Patched(step.value.value, [step.value.item]))
  {
    assert Run(apply, input, patch, 0, 0) == Ok(Patched(input, []));
    var step := apply(input, patch[0], 0);
    assert step.Ok? ==> [] + [step.value.item] == [step.value.item];
  }

  /** Applying p then q is applying their concatenation. */
  lemma {:induction false} RunConcat(apply: (Json, Operation, nat) -> Result<Step>, input: Json, p: seq<Operation>, q: seq<Operation>, n: nat, start: nat)
    requires n <= |q|
    ensures Run(apply, input, p + q, |p| + n, start) ==
              var a := Run(apply, input, p, |p|, start);
              if a.Err? then a
              else
                var b := Run(apply, a.value.value, q, n, start + |p|);
                if b.Err? then b else Ok(Patched(b.value.value, a.value.diff + b.value.diff))
  {
    var a := Run(apply, input, p, |p|, start);
    if n == 0 {
      RunPrefix(apply, input, p, p + q, |p|, start);
      assert a.Ok? ==> a.value.diff + [] == a.value.diff;
    } else {
      RunConcat(apply, input, p, q, n - 1, start);
      assert (p + q)[|p| + n - 1] == q[n - 1];
      if a.Ok? && Run(apply, a.value.value, q, n - 1, start + |p|).Ok? {
        var b := Run(apply, a.value.value, q, n - 1, start + |p|).value;
        var step := apply(b.value, q[n - 1], start + |p| + n - 1);
        assert step.Ok? ==> (a.value.diff + b.diff) + [step.value.item] == a.value.diff + (b.diff + [step.value.item]);
      }
    }
  }

  lemma {:induction false} RunPrefix(apply: (Json, Operation, nat) -> Result<Step>, input: Json, p: seq<Operation>, more: seq<Operation>, n: nat, start: nat)
    requires n <= |p| && p <= more
    ensures Run(apply, input, more, n, start) == Run(apply, input, p, n, start)
  {
    if n > 0 { RunPrefix(apply, input, p, more, n - 1, start); }
  }

  predicate SameOutcome<T(==)>(a: Result<T>, b: Result<T>) { (a.Ok? <==> b.Ok?) && (a.Ok? ==> a == b) }

  /** The numbering of operations only shows in errors. */
  lemma {:induction false} RunAnyStart(apply: (Json, Operation, nat) -> Result<Step>, input: Json, patch: seq<Operation>, n: nat, i: nat, j: nat)
    requires forall v, o, k: nat, l: nat :: SameOutcome(apply(v, o, k), apply(v, o, l))
    requires n <= |patch|
    ensures SameOutcome(Run(apply, input, patch, n, i), Run(apply, input, patch, n, j))
  {
    if n > 0 {
      RunAnyStart(apply, input, patch, n - 1, i, j);
      var r := Run(apply, input, patch, n - 1, i);
      if r.Ok? {
        assert SameOutcome(apply(r.value.value, patch[n - 1], i + n - 1), apply(r.value.value, patch[n - 1], j + n - 1));
      }
    }
  }

  lemma EditAnyIndex(parent: Json, key: string, o: Operation, i: nat, j: nat)
    requires Container(parent)
    ensures SameOutcome(Edit(parent, key, o, i), Edit(parent, key, o, j))
  {
  }

  lemma ApplyAnyIndex(value: Json, o: Operation, i: nat, j: nat)
    ensures SameOutcome(Apply(value, o, i), Apply(value, o, j))
  {
    var segments := PointerSegments(o.path);
    if segments.Some? && segments.value != [] {
      ApplyAtAnyIndex(value, segments.value, o, i, j);
    }
  }

  lemma ApplyAtAnyIndex(value: Json, segments: seq<string>, o: Operation, i: nat, j: nat)
    requires segments != []
    ensures SameOutcome(ApplyAt(value, segments, o, i), ApplyAt(value, segments, o, j))
  {
    AtAnyIndex(value, segments[..|segments| - 1], i, j);
    if Parent(value, segments, i).Ok? {
      EditAnyIndex(Parent(value, segments, i).value, segments[|segments| - 1], o, i, j);
    }
  }

  /** Within the size limits, a patch may be split anywhere. */
  lemma PatchSplitsAnywhere(input: Json, p: seq<Operation>, q: seq<Operation>, bytes: nat, pBytes: nat, qBytes: nat)
    requires p != [] && q != [] && |p| + |q| <= MAX_PATCH_OPERATIONS
    requires bytes <= MAX_PATCH_BYTES && pBytes <= MAX_PATCH_BYTES && qBytes <= MAX_PATCH_BYTES
    ensures var whole, first := Applied(input, p + q, bytes), Applied(input, p, pBytes);
            if first.Err? then whole == first
            else
              var second := Applied(first.value.value, q, qBytes);
              if second.Err? then whole.Err?
              else whole == Ok(Patched(second.value.value, first.value.diff + second.value.diff))
  {
    SplitRun(Apply, input, p, q) by {
      forall v, o, k: nat, l: nat ensures SameOutcome(Apply(v, o, k), Apply(v, o, l)) { ApplyAnyIndex(v, o, k, l); }
    }
  }

  lemma SplitRun(apply: (Json, Operation, nat) -> Result<Step>, input: Json, p: seq<Operation>, q: seq<Operation>)
    requires forall v, o, k: nat, l: nat :: SameOutcome(apply(v, o, k), apply(v, o, l))
    ensures var whole, first := Run(apply, input, p + q, |p + q|, 0), Run(apply, input, p, |p|, 0);
            if first.Err? then whole == first
            else
              var second := Run(apply, first.value.value, q, |q|, 0);
              if second.Err? then whole.Err?
              else whole == Ok(Patched(second.value.value, first.value.diff + second.value.diff))
  {
    RunConcat(apply, input, p, q, |q|, 0);
    var first := Run(apply, input, p, |p|, 0);
    if first.Ok? { RunAnyStart(apply, first.value.value, q, |q|, |p|, 0); }
  }
}
