/** The handler's per-signer issuance counters, as values. In bless.go the
    map of `*counter.Counter` starts out nil, `counter(name)` creates the map
    and then the entry on first use, and `Incr(1)` moves the entry's value.
    Here the map is `Option<map<string, nat>>` (None is the nil map) and each
    counter is represented by its value. `Bump` is one `counter(name).Incr(1)`;
    `BumpAll` is a run of them in order. */
module Counters {
  import opened Results

  type CounterMap = Option<map<string, nat>>

  /** The value of the counter for `name`; a counter not created yet reads 0,
      which is what `stats.NewCounter` starts from. */
  function Count(cs: CounterMap, name: string): nat {
    if cs.Some? && name in cs.value then cs.value[name] else 0
  }

  /** `counter(name).Incr(1)`. */
  function Bump(cs: CounterMap, name: string): (r: CounterMap)
    ensures r.Some?
    ensures r.value.Keys == (if cs.Some? then cs.value.Keys else {}) + {name}
    ensures Count(r, name) == Count(cs, name) + 1
    ensures forall other :: other != name ==> Count(r, other) == Count(cs, other)
  {
    var m := if cs.Some? then cs.value else map[];
    Some(m[name := Count(cs, name) + 1])
  }

  /** The counter updates of a sequence of handled requests, in order. */
  function BumpAll(cs: CounterMap, names: seq<string>): CounterMap
    decreases |names|
  {
    if names == [] then cs else BumpAll(Bump(cs, names[0]), names[1..])
  }

  function Occurrences(names: seq<string>, name: string): nat
    decreases |names|
  {
    if names == [] then 0
    else (if names[0] == name then 1 else 0) + Occurrences(names[1..], name)
  }

  lemma {:induction false} OccurrencesAppend(xs: seq<string>, ys: seq<string>, name: string)
    ensures Occurrences(xs + ys, name) == Occurrences(xs, name) + Occurrences(ys, name)
    decreases |xs|
  {
    if xs == [] {
      assert xs + ys == ys;
    } else {
      assert (xs + ys)[1..] == xs[1..] + ys;
      OccurrencesAppend(xs[1..], ys, name);
    }
  }

  /** Each counter ends up moved by exactly the number of updates naming it;
      counters that are not named do not move. */
  lemma {:induction false} BumpAllCount(cs: CounterMap, names: seq<string>, name: string)
    ensures Count(BumpAll(cs, names), name) == Count(cs, name) + Occurrences(names, name)
    decreases |names|
  {
    if names != [] {
      BumpAllCount(Bump(cs, names[0]), names[1..], name);
    }
  }

  /** Running two batches of updates one after the other is running their
      concatenation. */
  lemma {:induction false} BumpAllAppend(cs: CounterMap, xs: seq<string>, ys: seq<string>)
    ensures BumpAll(cs, xs + ys) == BumpAll(BumpAll(cs, xs), ys)
    decreases |xs|
  {
    if xs == [] {
      assert xs + ys == ys;
    } else {
      assert (xs + ys)[1..] == xs[1..] + ys;
      BumpAllAppend(Bump(cs, xs[0]), xs[1..], ys);
    }
  }
}
