/**
 * Registering one bean per entity class, in order, into a name-keyed registry: the effect on the bean
 * factory's maps of the registration loops, stated as a fold.
 */
module BeanRegistry {
  import opened Platform

  /** The names `cs` are registered under. */
  function NamesOf(cs: seq<EntityClass>, name: EntityClass -> string): set<string> {
    set c | c in cs :: name(c)
  }

  /** `m` after `cs` were registered in order, class `c` under `name(c)` with `value(c)`; a later name overwrites. */
  function Register<V>(m: map<string, V>, cs: seq<EntityClass>, name: EntityClass -> string, value: EntityClass -> V): (r: map<string, V>)
    ensures r.Keys == m.Keys + NamesOf(cs, name)
  {
    if cs == [] then m
    else
      var init := cs[..|cs| - 1];
      var last := cs[|cs| - 1];
      assert cs == init + [last];
      assert NamesOf(cs, name) == NamesOf(init, name) + {name(last)};
      Register(m, init, name, value)[name(last) := value(last)]
  }

  /** Registering one more class extends the fold by one update: the shape the registration loops keep. */
  lemma RegisterSnoc<V>(m: map<string, V>, cs: seq<EntityClass>, c: EntityClass, name: EntityClass -> string, value: EntityClass -> V)
    ensures Register(m, cs + [c], name, value) == Register(m, cs, name, value)[name(c) := value(c)]
  {
    assert (cs + [c])[..|cs + [c]| - 1] == cs;
  }

  /** A name no class takes keeps its earlier entry. */
  lemma {:induction false} RegisterElsewhere<V>(m: map<string, V>, cs: seq<EntityClass>, name: EntityClass -> string, value: EntityClass -> V, k: string)
    requires k in m && k !in NamesOf(cs, name)
    ensures Register(m, cs, name, value)[k] == m[k]
  {
    if cs != [] {
      var init := cs[..|cs| - 1];
      assert NamesOf(init, name) <= NamesOf(cs, name);
      RegisterElsewhere(m, init, name, value, k);
    }
  }

  /** The last class registered under a name owns it. */
  lemma {:induction false} RegisterLastWins<V>(m: map<string, V>, cs: seq<EntityClass>, name: EntityClass -> string, value: EntityClass -> V, j: nat)
    requires j < |cs|
    requires forall k :: j < k < |cs| ==> name(cs[k]) != name(cs[j])
    ensures Register(m, cs, name, value)[name(cs[j])] == value(cs[j])
  {
    if j < |cs| - 1 {
      var init := cs[..|cs| - 1];
      assert name(cs[|cs| - 1]) != name(cs[j]);
      forall k | j < k < |init|
        ensures name(init[k]) != name(init[j])
      {
        assert init[k] == cs[k];
      }
      RegisterLastWins(m, init, name, value, j);
    }
  }

  /** With distinct names, every class is registered under its own name with its own value. */
  lemma RegisterInjective<V>(m: map<string, V>, cs: seq<EntityClass>, name: EntityClass -> string, value: EntityClass -> V, j: nat)
    requires j < |cs|
    requires forall a, b :: 0 <= a < b < |cs| ==> name(cs[a]) != name(cs[b])
    ensures name(cs[j]) in Register(m, cs, name, value)
    ensures Register(m, cs, name, value)[name(cs[j])] == value(cs[j])
  {
    RegisterLastWins(m, cs, name, value, j);
  }
}
