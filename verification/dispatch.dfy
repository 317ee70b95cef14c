/** The `Dispatcher`: the registry of configured APIs, from name to
    instance. Registering instantiates the class and files the instance
    under its own name, replacing any earlier one; looking up a name that
    was never registered is an error. */
module Dispatch {
  import opened Base
  import opened Strings
  import opened Arrays
  import opened ApiTypes

  /** The registered instances, keyed by API name, in registration order. */
  datatype Dispatcher = Dispatcher(available: Assoc<Api>)

  /** A new dispatcher has nothing registered. */
  const NoApis: Dispatcher := Dispatcher([])

  /** The argument of `addApi`: one class, or a list of them. */
  datatype ApiArg = One(cls: ApiClass) | Many(classes: seq<ApiClass>)

  datatype DispatchError = NoApiConfigured(name: string)

  /** The classes `addApi` goes through: a single class counts as a list
      of one. */
  function Classes(arg: ApiArg): (cs: seq<ApiClass>)
    ensures arg.One? ==> cs == [arg.cls]
    ensures arg.Many? ==> cs == arg.classes
  {
    match arg
    case One(c) => [c]
    case Many(cs) => cs
  }

  /** The key an instance is filed under: its name, with a null name
      becoming the empty key as PHP's array does. */
  function KeyOf(c: ApiClass): string {
    OrEmpty(c.apiName)
  }

  /** One registration: instantiate the class and file the instance under
      its name; every other name keeps its instance. */
  function Register(d: Dispatcher, c: ApiClass): (r: Dispatcher)
    ensures Get(r.available, KeyOf(c)) == Some(Instantiate(c))
    ensures forall k :: k != KeyOf(c) ==> Get(r.available, k) == Get(d.available, k)
  {
    PutSpec(d.available, KeyOf(c), Instantiate(c));
    Dispatcher(Put(d.available, KeyOf(c), Instantiate(c)))
  }

  /** Registering every class of a list, first to last. */
  function RegisterAll(d: Dispatcher, cs: seq<ApiClass>): Dispatcher
    decreases |cs|
  {
    if |cs| == 0 then d else RegisterAll(Register(d, cs[0]), cs[1..])
  }

  /** `addApi`. */
  function AddApi(d: Dispatcher, arg: ApiArg): Dispatcher {
    RegisterAll(d, Classes(arg))
  }

  /** Reference definition: the last class of the list filed under `k`. */
  function LastNamed(cs: seq<ApiClass>, k: string): (r: Option<ApiClass>)
    ensures r.Some? ==> KeyOf(r.value) == k && r.value in cs
    ensures r.None? ==> forall c :: c in cs ==> KeyOf(c) != k
    decreases |cs|
  {
    if |cs| == 0 then None
    else if KeyOf(cs[|cs| - 1]) == k then Some(cs[|cs| - 1])
    else LastNamed(cs[..|cs| - 1], k)
  }

  /** `LastNamed` seen from the front: the last class of `[c] + cs` named
      `k` is the last one of `cs`, or `c` when `cs` has none. */
  lemma {:induction false} LastNamedCons(c: ApiClass, cs: seq<ApiClass>, k: string)
    ensures LastNamed([c] + cs, k) == if LastNamed(cs, k).Some? then LastNamed(cs, k) else if KeyOf(c) == k then Some(c) else None
    decreases |cs|
  {
    var s := [c] + cs;
    if |cs| > 0 {
      assert s[..|s| - 1] == [c] + cs[..|cs| - 1];
      assert s[|s| - 1] == cs[|cs| - 1];
      if KeyOf(cs[|cs| - 1]) != k {
        LastNamedCons(c, cs[..|cs| - 1], k);
      }
    } else {
      assert s[..|s| - 1] == [];
    }
  }

  /** After registering a list, each name holds the instance of the last
      class in the list with that name, or what it held before when the
      list has none: later entries win, and every other name is kept. */
  lemma {:induction false} RegisterAllGet(d: Dispatcher, cs: seq<ApiClass>, k: string)
    ensures Get(RegisterAll(d, cs).available, k) ==
              match LastNamed(cs, k)
              case Some(c) => Some(Instantiate(c))
              case None => Get(d.available, k)
    decreases |cs|
  {
    if |cs| > 0 {
      var d1 := Register(d, cs[0]);
      RegisterAllGet(d1, cs[1..], k);
      LastNamedCons(cs[0], cs[1..], k);
      assert [cs[0]] + cs[1..] == cs;
      assert RegisterAll(d, cs) == RegisterAll(d1, cs[1..]);
    }
  }

  /** Registration keeps one instance per name. */
  lemma {:induction false} RegisterAllDistinct(d: Dispatcher, cs: seq<ApiClass>)
    requires Distinct(d.available)
    ensures Distinct(RegisterAll(d, cs).available)
    decreases |cs|
  {
    if |cs| > 0 {
      PutDistinct(d.available, KeyOf(cs[0]), Instantiate(cs[0]));
      RegisterAllDistinct(Register(d, cs[0]), cs[1..]);
    }
  }

  /** `addApi` with one class: that class is filed under its name and the
      others are untouched. */
  lemma AddOneApi(d: Dispatcher, c: ApiClass, k: string)
    ensures Get(AddApi(d, One(c)).available, k) == if k == KeyOf(c) then Some(Instantiate(c)) else Get(d.available, k)
  {
    RegisterAllGet(d, [c], k);
  }

  /** `__get`: the instance filed under the name, or an error naming it. */
  function Lookup(d: Dispatcher, name: string): (r: Result<Api, DispatchError>)
    ensures r.Success? <==> Has(d.available, name)
    ensures r.Success? ==> Get(d.available, name) == Some(r.value)
    ensures r.Failure? ==> r.error == NoApiConfigured(name)
  {
    match Get(d.available, name)
    case Some(api) => Success(api)
    case None => Failure(NoApiConfigured(name))
  }

  /** Looking up after `addApi`: a name some class of the argument carries
      yields a fresh instance of the last such class; any other name yields
      what it yielded before, and on a new dispatcher that is an error. */
  lemma LookupAfterAdd(d: Dispatcher, arg: ApiArg, k: string)
    ensures LastNamed(Classes(arg), k).Some? ==>
              Lookup(AddApi(d, arg), k) == Success(Instantiate(LastNamed(Classes(arg), k).value))
    ensures LastNamed(Classes(arg), k).None? ==> Lookup(AddApi(d, arg), k) == Lookup(d, k)
    ensures LastNamed(Classes(arg), k).None? && d == NoApis ==> Lookup(AddApi(d, arg), k) == Failure(NoApiConfigured(k))
  {
    RegisterAllGet(d, Classes(arg), k);
  }
}
