/**
 The `key` option of the storage plugin and its resolution into the list of
 state names under which slices of the state tree are persisted
 (`transformKeyOption` in packages/storage-plugin/src/internals.ts).
 */
module StorageKeys {

  /** What a state class's `NGXS_OPTIONS_META.name` holds: a plain state name or a `StateToken`. */
  datatype NameRef = NameStr(s: string) | NameToken(tokenName: string)

  /**
   One element of a key specifier.
   - `Str`: a plain string;
   - `StateClass`: a class carrying the `NGXS_OPTIONS_META` own property, whose metadata `name` is `metaName`;
   - `Token`: a `StateToken` instance; its `getName()` returns `name`.
   */
  datatype KeyElem =
    | Str(s: string)
    | StateClass(metaName: NameRef)
    | Token(name: string)

  /** The `StorageKey` union: one element, or a (one-level) array of elements. */
  datatype StorageKey = Single(elem: KeyElem) | Many(elems: seq<KeyElem>)

  /** First step of the per-element callback: a state class is replaced by its metadata `name`. */
  function SubstituteMeta(e: KeyElem): NameRef {
    match e
    case StateClass(m) => m
    case Str(s) => NameStr(s)
    case Token(n) => NameToken(n)
  }

  /** Second step: a `StateToken` answers `getName()`; anything else is cast to a string unchanged. */
  function GetNameOrCast(n: NameRef): string {
    match n
    case NameToken(t) => t
    case NameStr(s) => s
  }

  /** The state name one element of a key specifier stands for. */
  function ResolveElem(e: KeyElem): (r: string)
    ensures e.Str? ==> r == e.s
    ensures e.Token? ==> r == e.name
    ensures e.StateClass? && e.metaName.NameStr? ==> r == e.metaName.s
    ensures e.StateClass? && e.metaName.NameToken? ==> r == e.metaName.tokenName
  {
    GetNameOrCast(SubstituteMeta(e))
  }

  /** `Array.prototype.map` of `ResolveElem` over an array of elements. */
  function ResolveAll(es: seq<KeyElem>): (r: seq<string>)
    ensures |r| == |es|
    ensures forall i :: 0 <= i < |es| ==> r[i] == ResolveElem(es[i])
  {
    if es == [] then [] else [ResolveElem(es[0])] + ResolveAll(es[1..])
  }

  /** Resolves a key specifier into the ordered list of state names. */
  function TransformKeyOption(key: StorageKey): (r: seq<string>)
    ensures key.Single? ==> r == [ResolveElem(key.elem)]
    ensures key.Many? ==> |r| == |key.elems|
    ensures key.Many? ==> forall i :: 0 <= i < |r| ==> r[i] == ResolveElem(key.elems[i])
  {
    match key
    case Single(e) => ResolveAll([e])
    case Many(es) => ResolveAll(es)
  }

  /** A list of plain state names written back as a key specifier (an array of strings). */
  function FromNames(names: seq<string>): (k: StorageKey)
    ensures k.Many? && |k.elems| == |names|
    ensures forall i :: 0 <= i < |names| ==> k.elems[i] == Str(names[i])
  {
    Many(seq(|names|, i requires 0 <= i < |names| => Str(names[i])))
  }

  /** A non-array specifier is resolved exactly as the one-element array holding it. */
  lemma SingleIsOneElementArray(e: KeyElem)
    ensures TransformKeyOption(Single(e)) == TransformKeyOption(Many([e]))
    ensures |TransformKeyOption(Single(e))| == 1
  {
  }

  /** Arrays are resolved element by element: resolution distributes over concatenation. */
  lemma TransformConcat(a: seq<KeyElem>, b: seq<KeyElem>)
    ensures TransformKeyOption(Many(a + b)) == TransformKeyOption(Many(a)) + TransformKeyOption(Many(b))
  {
  }

  /** A state class resolves as if its metadata `name` had been given directly. */
  lemma StateClassResolvesAsItsName(m: NameRef)
    ensures m.NameStr? ==> ResolveElem(StateClass(m)) == ResolveElem(Str(m.s))
    ensures m.NameToken? ==> ResolveElem(StateClass(m)) == ResolveElem(Token(m.tokenName))
  {
  }

  /** Resolving an already resolved key (an array of strings) gives back the same names. */
  lemma ResolvedNamesAreFixed(names: seq<string>)
    ensures TransformKeyOption(FromNames(names)) == names
  {
  }
}
