/**
 The specification of the evictor: one map from identity to object state, and how often
 each object is kept. Nothing here mentions caches, queues, saving or eviction.
 */
module PlainMap {
  import opened EvictorTypes

  datatype Plain = Plain(objects: map<Key, string>, kept: map<Key, nat>)

  /** What a client can see of one atomic section of the evictor. */
  datatype Event =
    | Silent
    | Added(key: Key, state: string, ok: bool)
    | CreatedOrUpdated(key: Key, state: string)
    | Removed(key: Key, was: Option<string>)
    | Kept(key: Key, ok: bool)
    | Released(key: Key, ok: bool)
    | Located(key: Key, found: Option<string>)
    | Answered(key: Key, present: bool)
    | Updated(key: Key, state: string)

  /** Event `ev` is what the plain map would do and answer on the way from `p` to `q`. */
  ghost predicate Accepts(p: Plain, ev: Event, q: Plain) {
    match ev
    case Silent =>
      q == p
    case Added(k, v, ok) =>
      && ok == (k !in p.objects)
      && q == if ok then p.(objects := p.objects[k := v]) else p
    case CreatedOrUpdated(k, v) =>
      q == p.(objects := p.objects[k := v])
    case Removed(k, was) =>
      && was == Get(p.objects, k)
      && q == Plain(p.objects - {k}, p.kept - {k})
    case Kept(k, ok) =>
      && ok == (k in p.objects)
      && q == if ok then p.(kept := p.kept[k := KeepCount(p, k) + 1]) else p
    case Released(k, ok) =>
      && ok == (KeepCount(p, k) > 0)
      && q == if !ok then p
              else if KeepCount(p, k) == 1 then p.(kept := p.kept - {k})
              else p.(kept := p.kept[k := (KeepCount(p, k) - 1) as nat])
    case Located(k, found) =>
      found == Get(p.objects, k) && q == p
    case Answered(k, present) =>
      present == (k in p.objects) && q == p
    case Updated(k, v) =>
      k in p.objects && q == p.(objects := p.objects[k := v])
  }

  ghost function KeepCount(p: Plain, k: Key): nat {
    if k in p.kept then p.kept[k] else 0
  }
}
