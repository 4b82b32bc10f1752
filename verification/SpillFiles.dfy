/** Who owns which spill file. Sequences are created, copied through the prompt cache, renamed,
  * worked on and dropped in any order, and no step of one touches a file another one's pages are
  * in. Each layer's own work is what the paged cache promises of it. */
module SpillFiles {
  import opened Pages
  import opened KvCache

  /** One layer's cache as a value. */
  datatype Layer = Layer(sh: Shape, book: Book, items: seq<Pair>)

  datatype Owner = Owner(id: nat, layers: seq<Layer>)

  /** The sequences being served, by handle; the states the prompt cache keeps, by key; the files
    * of the store they share; and the next identity to give out. */
  datatype World = World(files: Files, live: map<nat, Owner>, cached: map<nat, Owner>, nextId: nat)

  ghost predicate LayerOk(files: Files, o: Owner, l: nat)
    requires l < |o.layers|
  {
    var y := o.layers[l];
    y.sh.seqId == o.id && y.sh.layer == l && Stands(y.sh, files, y.book, y.items)
  }

  /** Every layer's pages and files stand for the list the layer has been given. */
  ghost predicate OwnerOk(files: Files, o: Owner) {
    forall l :: 0 <= l < |o.layers| ==> LayerOk(files, o, l)
  }

  predicate HasSpill(o: Owner) {
    exists l :: 0 <= l < |o.layers| && o.layers[l].book.spilled != map[]
  }

  /** `p` is the file of one of `o`'s spilled blocks. */
  ghost predicate Names(o: Owner, p: Path) {
    exists l, b :: NamesAt(o, p, l, b)
  }

  predicate NamesAt(o: Owner, p: Path, l: nat, b: nat) {
    l < |o.layers| && b in o.layers[l].book.spilled && o.layers[l].book.spilled[b] == p
  }

  ghost predicate WorldOk(w: World) {
    && (forall h :: h in w.live ==> OwnerOk(w.files, w.live[h]) && w.live[h].id < w.nextId)
    && (forall h, g :: h in w.live && g in w.live && h != g ==> w.live[h].id != w.live[g].id)
    && (forall k :: k in w.cached ==> OwnerOk(w.files, w.cached[k]) && !HasSpill(w.cached[k]))
  }

  // ---------------------------------------------------------------- the steps

  /** What can happen next: `h` names a sequence, `k` a cache entry, `l` a layer. */
  datatype Event =
    | Create(h: nat, shapes: seq<Shape>)
    | CreateFromCache(h: nat, k: nat)
    | Work(h: nat, l: nat)
    | Store(h: nat, k: nat)
    | Evict(k: nat)
    | Drop(h: nat)

  predicate About(e: Event, h: nat) {
    !e.Store? && !e.Evict? && e.h == h
  }

  function Fresh(id: nat, shapes: seq<Shape>): Owner {
    Owner(id, seq(|shapes|, l requires 0 <= l < |shapes| =>
      Layer(shapes[l].(seqId := id, layer := l), Book(map[], map[], 0), [])))
  }

  function Rekeyed(o: Owner, id: nat): Owner {
    Owner(id, seq(|o.layers|, l requires 0 <= l < |o.layers| => o.layers[l].(sh := o.layers[l].sh.(seqId := id))))
  }

  /** Dropping a state asks for the files it names to be deleted; each deletion may fail. */
  ghost predicate Purged(files: Files, files': Files, o: Owner) {
    forall p :: !Names(o, p) ==> SameFile(files, files', p)
  }

  ghost predicate Step(w: World, e: Event, w': World) {
    match e
    case Create(h, shapes) =>
      h !in w.live && (forall i :: 0 <= i < |shapes| ==> shapes[i].Valid()) &&
      w' == w.(live := w.live[h := Fresh(w.nextId, shapes)], nextId := w.nextId + 1)
    case CreateFromCache(h, k) =>
      h !in w.live && k in w.cached &&
      w' == w.(live := w.live[h := Rekeyed(w.cached[k], w.nextId)], nextId := w.nextId + 1)
    case Work(h, l) =>
      h in w.live && l < |w.live[h].layers| && Worked(w, h, l, w')
    case Store(h, k) =>
      h in w.live && w' == if HasSpill(w.live[h]) then w else w.(cached := w.cached[k := w.live[h]])
    case Evict(k) =>
      k in w.cached && Purged(w.files, w'.files, w.cached[k]) && w' == w.(cached := w.cached - {k}, files := w'.files)
    case Drop(h) =>
      h in w.live && Purged(w.files, w'.files, w.live[h]) && w' == w.(live := w.live - {h}, files := w'.files)
  }

  /** Any operation on one layer: afterwards the layer stands for some list again, and only files
    * of that layer of that sequence may have changed. Every method of the paged cache ensures it. */
  ghost predicate Worked(w: World, h: nat, l: nat, w': World)
    requires h in w.live && l < |w.live[h].layers|
  {
    && h in w'.live && |w'.live[h].layers| == |w.live[h].layers|
    && w'.live[h].layers[l].sh == w.live[h].layers[l].sh
    && LayerOk(w'.files, w'.live[h], l)
    && w'.live[h] == Owner(w.live[h].id, w.live[h].layers[l := w'.live[h].layers[l]])
    && w' == w.(live := w.live[h := w'.live[h]], files := w'.files)
    && OwnOnly(w.files, w'.files, w.live[h].id, l)
  }

  /** Sequence `h` has the same pages as before, and so does every file they are in. */
  ghost predicate Untouched(w: World, w': World, h: nat) {
    && h in w.live && h in w'.live && w'.live[h] == w.live[h]
    && forall p :: Names(w.live[h], p) ==> SameFile(w.files, w'.files, p)
  }

  // ---------------------------------------------------------------- safety

  lemma NamedForOwner(files: Files, o: Owner, p: Path)
    requires OwnerOk(files, o) && Names(o, p)
    ensures p.seqId == o.id
  {
    var l: nat, b: nat :| NamesAt(o, p, l, b);
    assert LayerOk(files, o, l);
    var y := o.layers[l];
    assert SpilledOk(y.sh, files, y.book, y.items, b);
  }

  lemma NothingNamed(o: Owner)
    requires !HasSpill(o)
    ensures forall p :: !Names(o, p)
  {
  }

  /** Files of other identities may change: a state keeps standing. */
  lemma ForeignOwner(files: Files, files': Files, o: Owner)
    requires OwnerOk(files, o)
    requires forall p :: Names(o, p) ==> SameFile(files, files', p)
    ensures OwnerOk(files', o)
  {
    forall l | 0 <= l < |o.layers|
      ensures LayerOk(files', o, l)
    {
      assert LayerOk(files, o, l);
      var y := o.layers[l];
      forall b
        ensures SpilledOk(y.sh, files', y.book, y.items, b)
      {
        assert SpilledOk(y.sh, files, y.book, y.items, b);
        if b in y.book.spilled {
          assert NamesAt(o, y.sh.PathOf(b), l, b);
          assert SameFile(files, files', y.sh.PathOf(b));
        }
      }
    }
  }

  lemma FreshOk(files: Files, id: nat, shapes: seq<Shape>)
    requires forall i :: 0 <= i < |shapes| ==> shapes[i].Valid()
    ensures OwnerOk(files, Fresh(id, shapes))
  {
  }

  lemma RekeyedOk(files: Files, o: Owner, id: nat)
    requires OwnerOk(files, o) && !HasSpill(o)
    ensures OwnerOk(files, Rekeyed(o, id))
  {
    forall l | 0 <= l < |o.layers|
      ensures LayerOk(files, Rekeyed(o, id), l)
    {
      assert LayerOk(files, o, l);
      Renamed(o.layers[l].sh, files, o.layers[l].book, o.layers[l].items, id);
    }
  }

  /** A step that keeps the files of everyone else keeps the rest of the world in order. */
  lemma OthersKept(w: World, w': World, id: nat)
    requires WorldOk(w)
    requires forall p: Path :: p.seqId != id ==> SameFile(w.files, w'.files, p)
    ensures forall h :: h in w.live && w.live[h].id != id ==>
      OwnerOk(w'.files, w.live[h]) && forall p :: Names(w.live[h], p) ==> SameFile(w.files, w'.files, p)
    ensures forall k :: k in w.cached ==> OwnerOk(w'.files, w.cached[k])
  {
    forall h | h in w.live && w.live[h].id != id
      ensures OwnerOk(w'.files, w.live[h]) && forall p :: Names(w.live[h], p) ==> SameFile(w.files, w'.files, p)
    {
      forall p | Names(w.live[h], p) ensures SameFile(w.files, w'.files, p) {
        NamedForOwner(w.files, w.live[h], p);
      }
      ForeignOwner(w.files, w'.files, w.live[h]);
    }
    forall k | k in w.cached
      ensures OwnerOk(w'.files, w.cached[k])
    {
      NothingNamed(w.cached[k]);
      ForeignOwner(w.files, w'.files, w.cached[k]);
    }
  }

  lemma WorkKeeps(w: World, h: nat, l: nat, w': World)
    requires WorldOk(w) && h in w.live && l < |w.live[h].layers| && Worked(w, h, l, w')
    ensures WorldOk(w') && forall g :: g in w.live && g != h ==> Untouched(w, w', g)
  {
    var o, o' := w.live[h], w'.live[h];
    OthersKept(w, w', o.id);
    forall m | 0 <= m < |o'.layers|
      ensures LayerOk(w'.files, o', m)
    {
      assert LayerOk(w.files, o, m);
      if m != l {
        OthersStand(w.files, w'.files, o.id, l, o.layers[m].sh, o.layers[m].book, o.layers[m].items);
      }
    }
  }

  lemma NewcomerKeeps(w: World, h: nat, o: Owner, w': World)
    requires WorldOk(w) && h !in w.live && OwnerOk(w.files, o) && o.id == w.nextId
    requires w' == w.(live := w.live[h := o], nextId := w.nextId + 1)
    ensures WorldOk(w') && forall g :: g in w.live ==> Untouched(w, w', g)
  {
    hide OwnerOk;
  }

  lemma EvictKeeps(w: World, k: nat, w': World)
    requires WorldOk(w) && Step(w, Evict(k), w')
    ensures WorldOk(w') && forall g :: g in w.live ==> Untouched(w, w', g)
  {
    NothingNamed(w.cached[k]);
    forall p ensures SameFile(w.files, w'.files, p) {
      assert !Names(w.cached[k], p);
    }
    OthersKept(w, w', w.nextId);
    hide OwnerOk;
  }

  lemma DropKeeps(w: World, h: nat, w': World)
    requires WorldOk(w) && Step(w, Drop(h), w')
    ensures WorldOk(w') && forall g :: g in w.live && g != h ==> Untouched(w, w', g)
  {
    forall p: Path | p.seqId != w.live[h].id ensures SameFile(w.files, w'.files, p) {
      if Names(w.live[h], p) {
        NamedForOwner(w.files, w.live[h], p);
      }
    }
    OthersKept(w, w', w.live[h].id);
    hide OwnerOk;
  }

  /** One step of any kind keeps the world in order and leaves every other sequence untouched. */
  lemma StepSafe(w: World, e: Event, w': World)
    requires WorldOk(w) && Step(w, e, w')
    ensures WorldOk(w')
    ensures forall h :: h in w.live && !About(e, h) ==> Untouched(w, w', h)
  {
    hide OwnerOk, Worked, Purged, OwnOnly;
    match e
    case Create(h, shapes) =>
      FreshOk(w.files, w.nextId, shapes);
      NewcomerKeeps(w, h, Fresh(w.nextId, shapes), w');
    case CreateFromCache(h, k) =>
      RekeyedOk(w.files, w.cached[k], w.nextId);
      NewcomerKeeps(w, h, Rekeyed(w.cached[k], w.nextId), w');
    case Work(h, l) =>
      WorkKeeps(w, h, l, w');
    case Store(h, k) =>
    case Evict(k) =>
      EvictKeeps(w, k, w');
    case Drop(h) =>
      DropKeeps(w, h, w');
  }

  ghost predicate Run(ws: seq<World>, es: seq<Event>) {
    && |ws| == |es| + 1 && ws[0].live == map[] && ws[0].cached == map[]
    && forall i :: 0 <= i < |es| ==> Step(ws[i], es[i], ws[i + 1])
  }

  /** Over a whole run, however its steps interleave: every sequence's pages and files stand for
    * exactly what it was given, and no step of one sequence, of the prompt cache or of an
    * eviction changes a file another sequence's pages are in. */
  lemma {:induction false} RunSafe(ws: seq<World>, es: seq<Event>, n: nat)
    requires Run(ws, es) && n <= |es|
    ensures WorldOk(ws[n])
    ensures n < |es| ==> forall h :: h in ws[n].live && !About(es[n], h) ==> Untouched(ws[n], ws[n + 1], h)
    decreases n
  {
    if n > 0 {
      RunSafe(ws, es, n - 1);
      StepSafe(ws[n - 1], es[n - 1], ws[n]);
    }
    if n < |es| {
      StepSafe(ws[n], es[n], ws[n + 1]);
    }
  }

  // ---------------------------------------------------------------- why the guard is there

  /** Were a state with spilled blocks kept by the prompt cache, evicting it would be allowed to
    * delete any file the live sequence's own pages are in, and that sequence would no longer
    * stand for what it was given. */
  lemma SharedSpillHarms(w: World, h: nat, k: nat, p: Path, w': World)
    requires WorldOk(w) && h in w.live && Names(w.live[h], p)
    requires w' == w.(files := w.files - {p})
    ensures
      var shared := w.(cached := w.cached[k := w.live[h]]);
      Step(shared, Evict(k), w'.(cached := shared.cached - {k})) && !OwnerOk(w'.files, w.live[h])
  {
    var o := w.live[h];
    var l: nat, b: nat :| NamesAt(o, p, l, b);
    assert LayerOk(w.files, o, l);
    assert SpilledOk(o.layers[l].sh, w.files, o.layers[l].book, o.layers[l].items, b);
    assert !SpilledOk(o.layers[l].sh, w'.files, o.layers[l].book, o.layers[l].items, b);
    assert !LayerOk(w'.files, o, l);
  }
}
