/**
 The timestamped merge of src/qorme/ml/store.py (CategoryModels.update_models).

 Configurations are opaque values compared for equality. A model that arrives carries its sample
 updates; the samples it may carry on the wire are overwritten before it is stored.
 */
module MlMerge {
  import opened Basics

  datatype Sample = Sample(hash: int, updatedAt: int, target: int, stable: bool)

  /** A model as received (MLModel without its stored samples). */
  datatype Update<C(==)> = Update(name: string, updatedAt: int, configuration: C, samples: seq<Sample>)

  /** A stored model: the update that last replaced it and the samples merged so far. */
  datatype Model<C(==)> = Model(update: Update<C>, samples: map<int, Sample>)

  type Models<C(==)> = map<string, Model<C>>

  // ---------------------------------------------------------------- one model

  /** The samples of a new model: the stable ones, a later one replacing an earlier one. */
  function NewSamples(samples: seq<Sample>): map<int, Sample> {
    if samples == [] then map[]
    else
      var m, s := NewSamples(samples[..|samples| - 1]), samples[|samples| - 1];
      if s.stable then m[s.hash := s] else m
  }

  /** One turn of the loop over the sample updates. */
  function MergeSample(m: map<int, Sample>, s: Sample): map<int, Sample> {
    if s.hash in m && m[s.hash].updatedAt >= s.updatedAt then m
    else if s.stable then m[s.hash := s]
    else m - {s.hash}
  }

  function MergeSamples(m: map<int, Sample>, samples: seq<Sample>): map<int, Sample> {
    if samples == [] then m
    else MergeSample(MergeSamples(m, samples[..|samples| - 1]), samples[|samples| - 1])
  }

  /** The effect of one model of the batch on the model stored under its name. */
  function MergeModel<C(==)>(prev: Option<Model<C>>, u: Update<C>): Option<Model<C>> {
    match prev
    case None =>
      var samples := NewSamples(u.samples);
      if samples == map[] then None else Some(Model(u, samples))
    case Some(p) =>
      if p.update.updatedAt >= u.updatedAt then prev
      else
        var base := if p.update.configuration != u.configuration then map[] else p.samples;
        var samples := MergeSamples(base, u.samples);
        if samples == map[] then None else Some(Model(u, samples))
  }

  function Get<C(==)>(models: Models<C>, name: string): Option<Model<C>> {
    if name in models then Some(models[name]) else None
  }

  function Put<C(==)>(models: Models<C>, name: string, m: Option<Model<C>>): Models<C> {
    match m
    case None => models - {name}
    case Some(x) => models[name := x]
  }

  /** The whole batch. */
  function UpdateModels<C(==)>(models: Models<C>, batch: seq<Update<C>>): Models<C> {
    if batch == [] then models
    else
      var before, u := UpdateModels(models, batch[..|batch| - 1]), batch[|batch| - 1];
      Put(before, u.name, MergeModel(Get(before, u.name), u))
  }

  /** What a history of updates makes of one model. */
  function History<C(==)>(prev: Option<Model<C>>, updates: seq<Update<C>>): Option<Model<C>> {
    if updates == [] then prev
    else MergeModel(History(prev, updates[..|updates| - 1]), updates[|updates| - 1])
  }

  /** The updates of a log that concern one name. */
  function ForName<C(==)>(log: seq<Update<C>>, name: string): seq<Update<C>> {
    if log == [] then []
    else
      var rest := ForName(log[..|log| - 1], name);
      if log[|log| - 1].name == name then rest + [log[|log| - 1]] else rest
  }

  /** The model under a name depends on the updates for that name alone. */
  lemma {:induction false} PerName<C>(models: Models<C>, log: seq<Update<C>>, name: string)
    ensures Get(UpdateModels(models, log), name) == History(Get(models, name), ForName(log, name))
  {
    if log != [] {
      var init, u := log[..|log| - 1], log[|log| - 1];
      PerName(models, init, name);
      if u.name == name {
        var rest := ForName(init, name);
        assert (rest + [u])[..|rest|] == rest;
      }
    }
  }

  lemma {:induction false} ForNameConcat<C>(a: seq<Update<C>>, b: seq<Update<C>>, name: string)
    ensures ForName(a + b, name) == ForName(a, name) + ForName(b, name)
  {
    if b == [] {
      assert a + b == a;
    } else {
      assert (a + b)[..|a + b| - 1] == a + b[..|b| - 1];
      ForNameConcat(a, b[..|b| - 1], name);
    }
  }

  lemma {:induction false} UpdateConcat<C>(models: Models<C>, a: seq<Update<C>>, b: seq<Update<C>>)
    ensures UpdateModels(models, a + b) == UpdateModels(UpdateModels(models, a), b)
  {
    if b == [] {
      assert a + b == a;
    } else {
      assert (a + b)[..|a + b| - 1] == a + b[..|b| - 1];
      UpdateConcat(models, a, b[..|b| - 1]);
    }
  }

  lemma OneUpdate<C>(log: seq<Update<C>>, u: Update<C>)
    ensures var before := UpdateModels(map[], log);
            UpdateModels(map[], log + [u]) == Put(before, u.name, MergeModel(Get(before, u.name), u))
  {
    assert (log + [u])[..|log|] == log;
  }

  class CategoryModels<C(==)> {
    var models: Models<C>

    /** All updates received so far. */
    ghost var log: seq<Update<C>>

    ghost predicate Valid() reads this { models == UpdateModels(map[], log) }

    constructor ()
      ensures Valid() && models == map[] && log == []
    {
      models, log := map[], [];
    }

    /** What the updates received for this name, in their order, have made of the model. */
    method GetModel(name: string) returns (m: Option<Model<C>>)
      requires Valid()
      ensures m == History(None, ForName(log, name))
    {
      PerName(map[], log, name);
      m := if name in models then Some(models[name]) else None;
    }

    method Apply(batch: seq<Update<C>>)
      requires Valid()
      modifies this
      ensures Valid() && log == old(log) + batch
      ensures models == UpdateModels(old(models), batch)
    {
      assert log + batch[..0] == log;
      for i := 0 to |batch|
        invariant Valid() && log == old(log) + batch[..i]
      {
        assert old(log) + batch[..i + 1] == (old(log) + batch[..i]) + [batch[i]];
        ApplyOne(batch[i]);
      }
      assert batch[..|batch|] == batch;
      UpdateConcat(map[], old(log), batch);
    }

    /** The body of the loop over the batch. */
    method ApplyOne(model: Update<C>)
      requires Valid()
      modifies this
      ensures Valid() && log == old(log) + [model]
    {
      PerName(map[], log, model.name);
      var prev := GetModel(model.name);
      OneUpdate(log, model);
      log := log + [model];
      ghost var before := models;
      if prev.None? {
        var samples := NewSamples(model.samples);
        if samples != map[] {
          models := models[model.name := Model(model, samples)];
        } else {
          assert models - {model.name} == before;
        }
        return;
      }
      if prev.value.update.updatedAt >= model.updatedAt {
        assert models[model.name := prev.value] == before;
        return;
      }
      var newSamples := if prev.value.update.configuration != model.configuration
                        then map[] else prev.value.samples;
      newSamples := MergeLoop(newSamples, model.samples);
      if newSamples == map[] {
        models := models - {model.name};
      } else {
        models := models[model.name := Model(model, newSamples)];
      }
    }

    method MergeLoop(base: map<int, Sample>, samples: seq<Sample>) returns (m: map<int, Sample>)
      ensures m == MergeSamples(base, samples)
    {
      m := base;
      for i := 0 to |samples|
        invariant m == MergeSamples(base, samples[..i])
      {
        assert samples[..i + 1][..i] == samples[..i];
        var sample := samples[i];
        if sample.hash in m && m[sample.hash].updatedAt >= sample.updatedAt {
          continue;
        }
        if sample.stable {
          m := m[sample.hash := sample];
        } else {
          m := m - {sample.hash};
        }
      }
      assert samples[..|samples|] == samples;
    }
  }

  // ---------------------------------------------------------------- what every update keeps

  predicate GoodSamples(m: map<int, Sample>) {
    forall h :: h in m ==> m[h].stable && m[h].hash == h
  }

  predicate GoodModel<C(==)>(name: string, m: Model<C>) {
    m.samples != map[] && GoodSamples(m.samples) && m.update.name == name
  }

  predicate GoodModels<C(==)>(models: Models<C>) {
    forall name :: name in models ==> GoodModel(name, models[name])
  }

  lemma {:induction false} NewSamplesGood(samples: seq<Sample>)
    ensures GoodSamples(NewSamples(samples))
  {
    if samples != [] { NewSamplesGood(samples[..|samples| - 1]); }
  }

  lemma {:induction false} MergeSamplesGood(m: map<int, Sample>, samples: seq<Sample>)
    requires GoodSamples(m)
    ensures GoodSamples(MergeSamples(m, samples))
  {
    if samples != [] { MergeSamplesGood(m, samples[..|samples| - 1]); }
  }

  lemma MergeModelGood<C>(prev: Option<Model<C>>, u: Update<C>)
    requires prev.Some? ==> GoodModel(u.name, prev.value)
    ensures var r := MergeModel(prev, u); r.Some? ==> GoodModel(u.name, r.value)
  {
    NewSamplesGood(u.samples);
    MergeSamplesGood(map[], u.samples);
    if prev.Some? { MergeSamplesGood(prev.value.samples, u.samples); }
  }

  /** Every stored model keeps a non-empty set of samples, all stable and keyed by their own hash. */
  lemma {:induction false} UpdateKeepsGood<C>(models: Models<C>, batch: seq<Update<C>>)
    requires GoodModels(models)
    ensures GoodModels(UpdateModels(models, batch))
  {
    if batch != [] {
      var u := batch[|batch| - 1];
      UpdateKeepsGood(models, batch[..|batch| - 1]);
      MergeModelGood(Get(UpdateModels(models, batch[..|batch| - 1]), u.name), u);
    }
  }

  // ---------------------------------------------------------------- timestamps along a history

  /** What is stored after the first n updates. */
  function Stored<C(==)>(prev: Option<Model<C>>, updates: seq<Update<C>>, n: nat): Option<Model<C>>
    requires n <= |updates|
  {
    History(prev, updates[..n])
  }

  lemma StoredStep<C>(prev: Option<Model<C>>, updates: seq<Update<C>>, n: nat)
    requires n < |updates|
    ensures Stored(prev, updates, n + 1) == MergeModel(Stored(prev, updates, n), updates[n])
  {
    assert updates[..n + 1][..n] == updates[..n];
  }

  /** Between removals the timestamps along any history rise strictly with every change of the model. */
  lemma {:induction false} TimestampsRise<C>(prev: Option<Model<C>>, updates: seq<Update<C>>, i: nat, j: nat)
    requires i <= j <= |updates|
    requires forall k :: i <= k <= j ==> Stored(prev, updates, k).Some?
    ensures var before, after := Stored(prev, updates, i).value, Stored(prev, updates, j).value;
            before == after || before.update.updatedAt < after.update.updatedAt
    decreases j
  {
    if i < j {
      TimestampsRise(prev, updates, i, j - 1);
      StoredStep(prev, updates, j - 1);
    }
  }

  // ---------------------------------------------------------------- applying a batch twice

  predicate DistinctHashes(samples: seq<Sample>) {
    forall i, j :: 0 <= i < j < |samples| ==> samples[i].hash != samples[j].hash
  }

  predicate HasStable(samples: seq<Sample>) {
    exists i :: 0 <= i < |samples| && samples[i].stable
  }

  lemma {:induction false} NewSamplesEmpty(samples: seq<Sample>)
    ensures NewSamples(samples) == map[] <==> !HasStable(samples)
  {
    if samples != [] {
      var init, s := samples[..|samples| - 1], samples[|samples| - 1];
      NewSamplesEmpty(init);
      assert samples[|samples| - 1] == s;
      if s.stable { assert s.hash in NewSamples(samples); }
      if HasStable(init) {
        var i :| 0 <= i < |init| && init[i].stable;
        assert samples[i].stable;
      }
    }
  }

  /**
   Applying an update twice equals applying it once exactly when the first application left a model
   behind or the update has no stable sample.
   */
  lemma TwiceIsOnceExactly<C>(prev: Option<Model<C>>, u: Update<C>)
    ensures var once := MergeModel(prev, u);
            MergeModel(once, u) == once <==> once.Some? || !HasStable(u.samples)
  {
    NewSamplesEmpty(u.samples);
  }

  /** With distinct hashes a stable sample, or a newer one of the same hash, survives the merge. */
  lemma {:induction false} StableSurvives(m: map<int, Sample>, samples: seq<Sample>, i: nat)
    requires DistinctHashes(samples) && i < |samples| && samples[i].stable
    ensures samples[i].hash in MergeSamples(m, samples)
  {
    if i < |samples| - 1 {
      StableSurvives(m, samples[..|samples| - 1], i);
    }
  }

  lemma TwiceIsOnceForModel<C>(prev: Option<Model<C>>, u: Update<C>)
    requires DistinctHashes(u.samples)
    ensures MergeModel(MergeModel(prev, u), u) == MergeModel(prev, u)
  {
    TwiceIsOnceExactly(prev, u);
    NewSamplesEmpty(u.samples);
    if MergeModel(prev, u).None? && HasStable(u.samples) {
      var i :| 0 <= i < |u.samples| && u.samples[i].stable;
      StableSurvives(map[], u.samples, i);
      if prev.Some? { StableSurvives(prev.value.samples, u.samples, i); }
      assert false;
    }
  }

  predicate DistinctNames<C>(batch: seq<Update<C>>) {
    forall i, j :: 0 <= i < j < |batch| ==> batch[i].name != batch[j].name
  }

  lemma {:induction false} AtMostOnePerName<C>(batch: seq<Update<C>>, name: string)
    requires DistinctNames(batch)
    ensures ForName(batch, name) == [] ||
            exists i :: 0 <= i < |batch| && batch[i].name == name && ForName(batch, name) == [batch[i]]
    ensures ForName(batch, name) == [] ==> forall i :: 0 <= i < |batch| ==> batch[i].name != name
  {
    if batch != [] {
      var init := batch[..|batch| - 1];
      AtMostOnePerName(init, name);
      if ForName(init, name) != [] {
        var i :| 0 <= i < |init| && init[i].name == name && ForName(init, name) == [init[i]];
        assert batch[i].name == name && ForName(batch, name) == [batch[i]];
      } else {
        assert batch[|batch| - 1].name == name ==> ForName(batch, name) == [batch[|batch| - 1]];
      }
    }
  }

  /** With distinct names and, in each model, distinct hashes, redelivering a batch changes nothing. */
  lemma RedeliveryIsHarmless<C>(models: Models<C>, batch: seq<Update<C>>)
    requires DistinctNames(batch)
    requires forall i :: 0 <= i < |batch| ==> DistinctHashes(batch[i].samples)
    ensures UpdateModels(UpdateModels(models, batch), batch) == UpdateModels(models, batch)
  {
    var once := UpdateModels(models, batch);
    var twice := UpdateModels(once, batch);
    forall name: string ensures Get(twice, name) == Get(once, name) {
      PerName(models, batch, name);
      PerName(once, batch, name);
      AtMostOnePerName(batch, name);
      if ForName(batch, name) != [] {
        var i :| 0 <= i < |batch| && batch[i].name == name && ForName(batch, name) == [batch[i]];
        assert [batch[i]][..0] == [];
        TwiceIsOnceForModel(Get(models, name), batch[i]);
      }
    }
    SameModels(once, twice);
  }

  lemma SameModels<C>(a: Models<C>, b: Models<C>)
    requires forall name :: Get(a, name) == Get(b, name)
    ensures a == b
  {
    forall name ensures name in a <==> name in b { assert Get(a, name) == Get(b, name); }
    forall name | name in a ensures a[name] == b[name] { assert Get(a, name) == Get(b, name); }
  }

  /** Without distinct hashes redelivery can bring a removed model back. */
  lemma RedeliveryCanRevive()
    ensures exists prev: Option<Model<int>>, u: Update<int> ::
              prev.Some? && GoodModel(u.name, prev.value) && MergeModel(MergeModel(prev, u), u) != MergeModel(prev, u)
  {
    var kept := Sample(7, 1, 0, true);
    var prev := Some(Model(Update("m", 1, 1, [kept]), map[7 := kept]));
    var a, b := Sample(7, 2, 0, true), Sample(7, 3, 0, false);
    var u := Update("m", 2, 2, [a, b]);
    OneSample(map[], a);
    assert u.samples[..1] == [a];
    assert MergeSamples(map[], u.samples) == MergeSample(map[7 := a], b) == map[];
    assert u.samples[0].stable;
    TwiceIsOnceExactly(prev, u);
  }

  lemma {:induction false} MergedHashes(samples: seq<Sample>, h: int)
    requires h in MergeSamples(map[], samples)
    ensures exists i :: 0 <= i < |samples| && samples[i].hash == h
  {
    var init, s := samples[..|samples| - 1], samples[|samples| - 1];
    if s.hash == h {
      assert samples[|samples| - 1].hash == h;
    } else {
      MergedHashes(init, h);
      var i :| 0 <= i < |init| && init[i].hash == h;
      assert samples[i].hash == h;
    }
  }

  /** The path of a new model is the merge loop run from no samples. */
  lemma {:induction false} NewIsMergeFromEmpty(samples: seq<Sample>)
    requires DistinctHashes(samples)
    ensures NewSamples(samples) == MergeSamples(map[], samples)
  {
    if samples != [] {
      var init, s := samples[..|samples| - 1], samples[|samples| - 1];
      NewIsMergeFromEmpty(init);
      if s.hash in MergeSamples(map[], init) {
        MergedHashes(init, s.hash);
        assert false;
      }
    }
  }

  // ---------------------------------------------------------------- last writer wins

  /** Timestamps grow from model to model, and for each hash from sample to sample. */
  predicate InOrder<C>(updates: seq<Update<C>>) {
    && (forall i, j :: 0 <= i < j < |updates| ==> updates[i].updatedAt < updates[j].updatedAt)
    && (forall i, j, a, b | 0 <= i < j < |updates| && a in updates[i].samples && b in updates[j].samples ::
          a.hash == b.hash ==> a.updatedAt < b.updatedAt)
    && (forall i :: 0 <= i < |updates| ==> DistinctHashes(updates[i].samples))
  }

  lemma InOrderPrefix<C>(a: seq<Update<C>>, b: seq<Update<C>>)
    requires InOrder(a + b)
    ensures InOrder(a)
  {
    forall i | 0 <= i < |a| ensures (a + b)[i] == a[i] {}
  }

  /** The samples sent since the configuration last changed. */
  ghost function Epoch<C>(updates: seq<Update<C>>): set<Sample> {
    if updates == [] then {}
    else
      var n := |updates| - 1;
      (if n > 0 && updates[n - 1].configuration == updates[n].configuration then Epoch(updates[..n]) else {})
      + set s | s in updates[n].samples
  }

  /** s is the last writer of its hash. */
  ghost predicate Latest(written: set<Sample>, s: Sample) {
    s in written && forall t :: t in written && t.hash == s.hash ==> t == s || t.updatedAt < s.updatedAt
  }

  predicate Stores(m: map<int, Sample>, s: Sample) {
    s.hash in m && m[s.hash] == s
  }

  function SamplesOf<C>(m: Option<Model<C>>): map<int, Sample> {
    if m.None? then map[] else m.value.samples
  }

  /** A merge of samples that are all newer than what they meet overwrites exactly their hashes. */
  lemma {:induction false} MergeNewer(m: map<int, Sample>, samples: seq<Sample>, s: Sample)
    requires DistinctHashes(samples)
    requires forall t :: t in samples && t.hash in m ==> m[t.hash].updatedAt < t.updatedAt
    ensures Stores(MergeSamples(m, samples), s) <==>
              (s in samples && s.stable) || (Stores(m, s) && forall t :: t in samples ==> t.hash != s.hash)
    ensures forall h :: h in MergeSamples(m, samples) && (forall t :: t in samples ==> t.hash != h)
              ==> h in m && MergeSamples(m, samples)[h] == m[h]
  {
    if samples != [] {
      var init, last := samples[..|samples| - 1], samples[|samples| - 1];
      assert samples == init + [last];
      MergeNewer(m, init, s);
      assert forall t :: t in init ==> t.hash != last.hash;
    }
  }

  lemma {:induction false} EpochFromUpdates<C>(updates: seq<Update<C>>, s: Sample)
    requires s in Epoch(updates)
    ensures exists i :: 0 <= i < |updates| && s in updates[i].samples
  {
    var n := |updates| - 1;
    if s !in updates[n].samples {
      EpochFromUpdates(updates[..n], s);
      var i :| 0 <= i < n && s in updates[..n][i].samples;
      assert s in updates[i].samples;
    }
  }

  /** A sample of the last update is the last writer of its hash. */
  lemma NewestIsLatest<C>(updates: seq<Update<C>>, s: Sample)
    requires InOrder(updates) && updates != [] && s in updates[|updates| - 1].samples
    ensures Latest(Epoch(updates), s)
  {
    forall t | t in Epoch(updates) && t.hash == s.hash ensures t == s || t.updatedAt < s.updatedAt {
      NewestIsLater(updates, s, t);
    }
  }

  lemma NewestIsLater<C>(updates: seq<Update<C>>, s: Sample, t: Sample)
    requires InOrder(updates) && updates != [] && s in updates[|updates| - 1].samples
    requires t in Epoch(updates) && t.hash == s.hash
    ensures t == s || t.updatedAt < s.updatedAt
  {
    var n := |updates| - 1;
    if t !in updates[n].samples {
      EpochFromUpdates(updates[..n], t);
      var i :| 0 <= i < n && t in updates[..n][i].samples;
      assert t in updates[i].samples;
    }
  }

  /** The samples of the current epoch that were written before the last update. */
  ghost function Carried<C>(updates: seq<Update<C>>): set<Sample>
    requires updates != []
  {
    var n := |updates| - 1;
    if n > 0 && updates[n - 1].configuration == updates[n].configuration then Epoch(updates[..n]) else {}
  }

  lemma CarriedIsOlder<C>(updates: seq<Update<C>>, s: Sample, t: Sample)
    requires InOrder(updates) && updates != [] && s in Carried(updates)
    requires t in updates[|updates| - 1].samples && t.hash == s.hash
    ensures s.updatedAt < t.updatedAt
  {
    var n := |updates| - 1;
    EpochFromUpdates(updates[..n], s);
    var i :| 0 <= i < n && s in updates[..n][i].samples;
    assert s in updates[i].samples;
  }

  /** An update overrides the carried samples of the hashes it mentions and no others. */
  lemma LatestAfter<C>(updates: seq<Update<C>>, s: Sample)
    requires InOrder(updates) && updates != []
    ensures var last := updates[|updates| - 1].samples;
            Latest(Epoch(updates), s) <==>
              s in last || (Latest(Carried(updates), s) && forall t :: t in last ==> t.hash != s.hash)
  {
    var last := updates[|updates| - 1].samples;
    if s in last {
      NewestIsLatest(updates, s);
    } else if s in Carried(updates) {
      forall t | t in last && t.hash == s.hash ensures s.updatedAt < t.updatedAt && t in Epoch(updates) {
        CarriedIsOlder(updates, s, t);
      }
    }
  }

  /** The samples the last update is merged into. */
  function Base<C(==)>(m: Option<Model<C>>, u: Update<C>): map<int, Sample> {
    if m.None? || m.value.update.configuration != u.configuration then map[] else m.value.samples
  }

  lemma MergeIsMergeIntoBase<C>(m: Option<Model<C>>, u: Update<C>)
    requires DistinctHashes(u.samples) && (m.Some? ==> m.value.update.updatedAt < u.updatedAt)
    ensures var r := MergeModel(m, u);
            && SamplesOf(r) == MergeSamples(Base(m, u), u.samples)
            && (r.None? <==> SamplesOf(r) == map[])
            && (r.Some? ==> r.value.update == u)
  {
    NewIsMergeFromEmpty(u.samples);
  }

  ghost predicate ShowsStableLatest(m: map<int, Sample>, written: set<Sample>) {
    forall s :: Stores(m, s) <==> s.stable && Latest(written, s)
  }

  lemma BaseShowsCarried<C>(updates: seq<Update<C>>, m: Option<Model<C>>)
    requires updates != []
    requires ShowsStableLatest(SamplesOf(m), Epoch(updates[..|updates| - 1]))
    requires m.Some? ==> |updates| > 1 && m.value.update == updates[|updates| - 2]
    ensures ShowsStableLatest(Base(m, updates[|updates| - 1]), Carried(updates))
  {
  }

  lemma StepShowsEpoch<C>(updates: seq<Update<C>>, base: map<int, Sample>)
    requires InOrder(updates) && updates != [] && GoodSamples(base)
    requires ShowsStableLatest(base, Carried(updates))
    ensures ShowsStableLatest(MergeSamples(base, updates[|updates| - 1].samples), Epoch(updates))
  {
    var last := updates[|updates| - 1].samples;
    forall t | t in last && t.hash in base ensures base[t.hash].updatedAt < t.updatedAt {
      assert Stores(base, base[t.hash]);
      CarriedIsOlder(updates, base[t.hash], t);
    }
    forall s ensures Stores(MergeSamples(base, last), s) <==> s.stable && Latest(Epoch(updates), s) {
      MergeNewer(base, last, s);
      LatestAfter(updates, s);
    }
  }

  /**
   In-order delivery makes the store a last-writer-wins map of the current configuration epoch that
   shows its stable entries only; the model is absent exactly when that map shows nothing.
   */
  lemma {:induction false} InOrderIsLastWriterWins<C>(updates: seq<Update<C>>)
    requires InOrder(updates)
    ensures var m := History(None, updates);
            && ShowsStableLatest(SamplesOf(m), Epoch(updates))
            && (m.None? <==> SamplesOf(m) == map[])
            && GoodSamples(SamplesOf(m))
            && (m.Some? ==> updates != [] && m.value.update == updates[|updates| - 1])
  {
    if updates != [] {
      var n := |updates| - 1;
      InOrderIsLastWriterWins(updates[..n]);
      var m, u := History(None, updates[..n]), updates[n];
      BaseShowsCarried(updates, m);
      StepShowsEpoch(updates, Base(m, u));
      MergeIsMergeIntoBase(m, u);
      MergeSamplesGood(Base(m, u), u.samples);
    }
  }

  /** The same for the whole store: each name shows the last writers of its own updates. */
  lemma StoreIsLastWriterWins<C>(log: seq<Update<C>>, name: string)
    requires InOrder(ForName(log, name))
    ensures var m := Get(UpdateModels(map[], log), name);
            && ShowsStableLatest(SamplesOf(m), Epoch(ForName(log, name)))
            && (m.None? <==> !exists s: Sample :: s.stable && Latest(Epoch(ForName(log, name)), s))
  {
    PerName(map[], log, name);
    InOrderIsLastWriterWins(ForName(log, name));
    EmptyShowsNothing(SamplesOf(Get(UpdateModels(map[], log), name)));
  }

  lemma EmptyShowsNothing(m: map<int, Sample>)
    requires GoodSamples(m)
    ensures m == map[] <==> forall s :: !Stores(m, s)
  {
    forall h | h in m ensures Stores(m, m[h]) {}
    if forall h :: h !in m { assert m == map[]; }
  }

  /** Sample i is stable, and no stable sample after it has its hash. */
  predicate LastStable(samples: seq<Sample>, s: Sample, i: nat) {
    && i < |samples| && samples[i] == s && s.stable
    && forall j :: i < j < |samples| && samples[j].stable ==> samples[j].hash != s.hash
  }

  /** A new model stores exactly the last stable sample of each hash. */
  lemma {:induction false} NewSamplesExactly(samples: seq<Sample>, s: Sample)
    ensures Stores(NewSamples(samples), s) <==> exists i :: LastStable(samples, s, i)
  {
    if samples != [] {
      var n := |samples| - 1;
      var init, last := samples[..n], samples[n];
      NewSamplesExactly(init, s);
      if i: nat :| LastStable(samples, s, i) && i < n { assert LastStable(init, s, i); }
      if i: nat :| LastStable(init, s, i) && !(last.stable && last.hash == s.hash) { assert LastStable(samples, s, i); }
      if last.stable && last == s { assert LastStable(samples, s, n); }
    }
  }

  // ---------------------------------------------------------------- when the order matters

  function AtHash(m: map<int, Sample>, h: int): Option<Sample> {
    if h in m then Some(m[h]) else None
  }

  /** With distinct hashes each sample of the update is merged as if it were alone. */
  lemma {:induction false} MergeAtHash(m: map<int, Sample>, samples: seq<Sample>, i: nat)
    requires DistinctHashes(samples) && i < |samples|
    ensures AtHash(MergeSamples(m, samples), samples[i].hash) == AtHash(MergeSample(m, samples[i]), samples[i].hash)
  {
    var n := |samples| - 1;
    if i < n {
      MergeAtHash(m, samples[..n], i);
    } else {
      MergeElsewhere(m, samples[..n], samples[i].hash);
    }
  }

  lemma {:induction false} MergeElsewhere(m: map<int, Sample>, samples: seq<Sample>, h: int)
    requires forall i :: 0 <= i < |samples| ==> samples[i].hash != h
    ensures AtHash(MergeSamples(m, samples), h) == AtHash(m, h)
  {
    if samples != [] { MergeElsewhere(m, samples[..|samples| - 1], h); }
  }

  /** y makes x unnecessary: it is x, or a newer sample of the same hash. */
  predicate Overrides(y: Sample, x: Sample) { y.hash == x.hash && (y == x || x.updatedAt < y.updatedAt) }

  predicate Overridden(x: Sample, b: seq<Sample>) { exists i :: 0 <= i < |b| && Overrides(b[i], x) }

  predicate AllOverridden(a: seq<Sample>, b: seq<Sample>) {
    forall i :: 0 <= i < |a| && a[i].stable ==> Overridden(a[i], b)
  }

  /** The samples of a are gone from x's hash exactly when b overrides x. */
  lemma MergedOver(a: seq<Sample>, b: seq<Sample>, i: nat)
    requires DistinctHashes(a) && DistinctHashes(b) && i < |a| && a[i].stable
    ensures AtHash(MergeSamples(NewSamples(a), b), a[i].hash) == AtHash(NewSamples(b), a[i].hash)
            <==> Overridden(a[i], b)
  {
    var x, m := a[i], NewSamples(a);
    NewIsMergeFromEmpty(a);
    NewIsMergeFromEmpty(b);
    MergeAtHash(map[], a, i);
    assert AtHash(m, x.hash) == Some(x);
    if j :| 0 <= j < |b| && b[j].hash == x.hash {
      MergeAtHash(m, b, j);
      MergeAtHash(map[], b, j);
      assert Overridden(x, b) <==> Overrides(b[j], x);
    } else {
      MergeElsewhere(m, b, x.hash);
      MergeElsewhere(map[], b, x.hash);
    }
  }

  /** Where a stores nothing, b is merged into nothing. */
  lemma MergedBeside(a: seq<Sample>, b: seq<Sample>, h: int)
    requires DistinctHashes(b) && h !in NewSamples(a)
    ensures AtHash(MergeSamples(NewSamples(a), b), h) == AtHash(NewSamples(b), h)
  {
    NewIsMergeFromEmpty(b);
    if j :| 0 <= j < |b| && b[j].hash == h {
      MergeAtHash(NewSamples(a), b, j);
      MergeAtHash(map[], b, j);
    } else {
      MergeElsewhere(NewSamples(a), b, h);
      MergeElsewhere(map[], b, h);
    }
  }

  lemma {:induction false} StoredByNew(samples: seq<Sample>, h: int) returns (i: nat)
    requires h in NewSamples(samples)
    ensures i < |samples| && samples[i].stable && samples[i].hash == h
  {
    var n := |samples| - 1;
    if samples[n].stable && samples[n].hash == h {
      i := n;
    } else {
      i := StoredByNew(samples[..n], h);
    }
  }

  lemma SameSamples(m: map<int, Sample>, n: map<int, Sample>)
    requires forall h :: AtHash(m, h) == AtHash(n, h)
    ensures m == n
  {
    forall h ensures h in m <==> h in n { assert AtHash(m, h) == AtHash(n, h); }
    forall h | h in m ensures m[h] == n[h] { assert AtHash(m, h) == AtHash(n, h); }
  }

  lemma MergeForgetsExactly(a: seq<Sample>, b: seq<Sample>)
    requires DistinctHashes(a) && DistinctHashes(b)
    ensures MergeSamples(NewSamples(a), b) == NewSamples(b) <==> AllOverridden(a, b)
  {
    forall i | 0 <= i < |a| && a[i].stable
      ensures AtHash(MergeSamples(NewSamples(a), b), a[i].hash) == AtHash(NewSamples(b), a[i].hash)
              <==> Overridden(a[i], b)
    {
      MergedOver(a, b, i);
    }
    if AllOverridden(a, b) {
      forall h ensures AtHash(MergeSamples(NewSamples(a), b), h) == AtHash(NewSamples(b), h) {
        if h in NewSamples(a) {
          var i := StoredByNew(a, h);
          assert Overridden(a[i], b);
        } else {
          MergedBeside(a, b, h);
        }
      }
      SameSamples(MergeSamples(NewSamples(a), b), NewSamples(b));
    }
  }

  /** What the older update stores leaves no trace beside the newer one. */
  predicate LeavesNoTrace<C(==)>(a: Update<C>, b: Update<C>) {
    || !HasStable(a.samples)
    || (HasStable(b.samples) && (a.configuration != b.configuration || AllOverridden(a.samples, b.samples)))
  }

  /**
   Two updates of a new model have the same effect in either order exactly when the older one has no
   stable sample, or the newer one has and makes all those of the older one unnecessary: by another
   configuration, or hash by hash. Otherwise the late older update is skipped, and what only it held
   is missing; or, when the newer one stored nothing, it is taken as new, removed samples included.
   */
  lemma OrderIrrelevantForNew<C>(a: Update<C>, b: Update<C>)
    requires a.updatedAt < b.updatedAt && DistinctHashes(a.samples) && DistinctHashes(b.samples)
    ensures History(None, [a, b]) == History(None, [b, a]) <==> LeavesNoTrace(a, b)
  {
    Two(None, a, b);
    Two(None, b, a);
    NewSamplesEmpty(a.samples);
    NewSamplesEmpty(b.samples);
    NewIsMergeFromEmpty(b.samples);
    MergeForgetsExactly(a.samples, b.samples);
  }

  // ---------------------------------------------------------------- the order of updates of a stored model

  /** t leaves at its hash what t says, whatever m holds there. */
  predicate Settles(m: map<int, Sample>, t: Sample) { t.hash !in m || Overrides(t, m[t.hash]) }

  predicate SettlesBoth(m: map<int, Sample>, n: map<int, Sample>, h: int, samples: seq<Sample>) {
    exists i :: 0 <= i < |samples| && samples[i].hash == h && Settles(m, samples[i]) && Settles(n, samples[i])
  }

  /** Two sets of samples hold the same at each hash, or the update settles what becomes of it. */
  predicate Agree(m: map<int, Sample>, n: map<int, Sample>, samples: seq<Sample>) {
    forall h | h in m.Keys + n.Keys :: AtHash(m, h) == AtHash(n, h) || SettlesBoth(m, n, h, samples)
  }

  /** The update has a stable sample, or leaves one of those it meets. */
  predicate LeavesSome(m: map<int, Sample>, samples: seq<Sample>) {
    HasStable(samples) || exists h :: h in m && !Overridden(m[h], samples)
  }

  /** At the hash of one of the samples, two merges end the same exactly when that sample settles both. */
  lemma SameAtMentioned(m: map<int, Sample>, n: map<int, Sample>, samples: seq<Sample>, i: nat)
    requires GoodSamples(m) && GoodSamples(n) && DistinctHashes(samples) && i < |samples|
    ensures var h := samples[i].hash;
            AtHash(MergeSamples(m, samples), h) == AtHash(MergeSamples(n, samples), h)
            <==> AtHash(m, h) == AtHash(n, h) || (Settles(m, samples[i]) && Settles(n, samples[i]))
  {
    MergeAtHash(m, samples, i);
    MergeAtHash(n, samples, i);
  }

  lemma SameAt(m: map<int, Sample>, n: map<int, Sample>, samples: seq<Sample>, h: int)
    requires GoodSamples(m) && GoodSamples(n) && DistinctHashes(samples)
    ensures AtHash(MergeSamples(m, samples), h) == AtHash(MergeSamples(n, samples), h)
            <==> AtHash(m, h) == AtHash(n, h) || SettlesBoth(m, n, h, samples)
  {
    if i :| 0 <= i < |samples| && samples[i].hash == h {
      SameAtMentioned(m, n, samples, i);
    } else {
      MergeElsewhere(m, samples, h);
      MergeElsewhere(n, samples, h);
    }
  }

  /** Two merges of one update end the same exactly when what they start from agrees hash by hash. */
  lemma MergesAgreeExactlyWhen(m: map<int, Sample>, n: map<int, Sample>, samples: seq<Sample>)
    requires GoodSamples(m) && GoodSamples(n) && DistinctHashes(samples)
    ensures MergeSamples(m, samples) == MergeSamples(n, samples) <==> Agree(m, n, samples)
  {
    forall h
      ensures AtHash(MergeSamples(m, samples), h) == AtHash(MergeSamples(n, samples), h)
              <==> AtHash(m, h) == AtHash(n, h) || SettlesBoth(m, n, h, samples)
    {
      SameAt(m, n, samples, h);
    }
    if Agree(m, n, samples) {
      forall h ensures AtHash(MergeSamples(m, samples), h) == AtHash(MergeSamples(n, samples), h) {
        assert h !in m.Keys + n.Keys ==> AtHash(m, h) == AtHash(n, h);
      }
      SameSamples(MergeSamples(m, samples), MergeSamples(n, samples));
    }
  }

  lemma StaysWhenNotOverridden(m: map<int, Sample>, samples: seq<Sample>, h: int)
    requires GoodSamples(m) && DistinctHashes(samples) && h in m && !Overridden(m[h], samples)
    ensures h in MergeSamples(m, samples)
  {
    if i :| 0 <= i < |samples| && samples[i].hash == h {
      MergeAtHash(m, samples, i);
      assert !Overrides(samples[i], m[h]);
    } else {
      MergeElsewhere(m, samples, h);
    }
    assert AtHash(MergeSamples(m, samples), h).Some?;
  }

  lemma GoesWhenOverridden(m: map<int, Sample>, samples: seq<Sample>, h: int)
    requires GoodSamples(m) && DistinctHashes(samples) && !HasStable(samples)
    requires h in m ==> Overridden(m[h], samples)
    ensures h !in MergeSamples(m, samples)
  {
    if i :| 0 <= i < |samples| && samples[i].hash == h {
      MergeAtHash(m, samples, i);
      assert !samples[i].stable;
    } else {
      MergeElsewhere(m, samples, h);
    }
    assert AtHash(MergeSamples(m, samples), h).None?;
  }

  lemma MergeLeavesSomeExactlyWhen(m: map<int, Sample>, samples: seq<Sample>)
    requires GoodSamples(m) && DistinctHashes(samples)
    ensures MergeSamples(m, samples) != map[] <==> LeavesSome(m, samples)
  {
    if i :| 0 <= i < |samples| && samples[i].stable {
      StableSurvives(m, samples, i);
    } else if h :| h in m && !Overridden(m[h], samples) {
      StaysWhenNotOverridden(m, samples, h);
    } else {
      forall h ensures h !in MergeSamples(m, samples) { GoesWhenOverridden(m, samples, h); }
    }
  }

  /**
   Neither order shows: both updates are stale; or what the older one leaves agrees, hash by hash, with
   what was there before, as far as the newer one meets it, and the older one has no stable sample that
   could come back as a new model or the newer one leaves a model, which holds the older one off.
   */
  predicate OrderIrrelevant<C(==)>(prev: Option<Model<C>>, a: Update<C>, b: Update<C>) {
    || (prev.Some? && b.updatedAt <= prev.value.update.updatedAt)
    || (&& Agree(Base(MergeModel(prev, a), b), Base(prev, b), b.samples)
        && (HasStable(a.samples) ==> LeavesSome(Base(prev, b), b.samples)))
  }

  lemma BasesGood<C>(prev: Option<Model<C>>, a: Update<C>, b: Update<C>)
    requires prev.Some? ==> GoodSamples(prev.value.samples)
    ensures GoodSamples(Base(prev, b)) && GoodSamples(Base(MergeModel(prev, a), b))
  {
    NewSamplesGood(a.samples);
    MergeSamplesGood(map[], a.samples);
    if prev.Some? { MergeSamplesGood(prev.value.samples, a.samples); }
  }

  /** What b makes of a model that is not newer. */
  lemma MergedModel<C>(prev: Option<Model<C>>, b: Update<C>)
    requires DistinctHashes(b.samples) && (prev.Some? ==> prev.value.update.updatedAt < b.updatedAt)
    ensures var m := MergeSamples(Base(prev, b), b.samples);
            MergeModel(prev, b) == if m == map[] then None else Some(Model(b, m))
  {
    NewIsMergeFromEmpty(b.samples);
  }

  /**
   Two updates have the same effect in either order, whatever is stored, exactly under the condition
   above. Of a stored model that is not older than a, only the last part is left of it.
   */
  lemma OrderIrrelevantExactlyWhen<C>(prev: Option<Model<C>>, a: Update<C>, b: Update<C>)
    requires prev.Some? ==> GoodSamples(prev.value.samples)
    requires a.updatedAt < b.updatedAt && DistinctHashes(a.samples) && DistinctHashes(b.samples)
    ensures History(prev, [a, b]) == History(prev, [b, a]) <==> OrderIrrelevant(prev, a, b)
  {
    Two(prev, a, b);
    Two(prev, b, a);
    if prev.None? || prev.value.update.updatedAt < b.updatedAt {
      MergedModel(prev, b);
      MergedModel(MergeModel(prev, a), b);
      NewSamplesEmpty(a.samples);
      BasesGood(prev, a, b);
      MergesAgreeExactlyWhen(Base(MergeModel(prev, a), b), Base(prev, b), b.samples);
      MergeLeavesSomeExactlyWhen(Base(prev, b), b.samples);
    }
  }

  /**
   A stored sample that the older update removes comes back when the newer one, which says nothing of
   it, arrives first.
   */
  lemma LateRemovalIsLost<C>(p: Model<C>, a: Update<C>, b: Update<C>, s: Sample, x: Sample, y: Sample)
    requires p.samples == map[s.hash := s] && a.samples == [x] && b.samples == [y]
    requires p.update.updatedAt < a.updatedAt < b.updatedAt
    requires p.update.configuration == a.configuration == b.configuration
    requires x.hash == s.hash != y.hash && s.updatedAt < x.updatedAt && !x.stable && y.stable
    ensures History(Some(p), [a, b]) == Some(Model(b, map[y.hash := y]))
    ensures History(Some(p), [b, a]) == Some(Model(b, map[s.hash := s, y.hash := y]))
  {
    OneSample(p.samples, x);
    OneSample(p.samples, y);
    OneSample(map[], y);
    Two(Some(p), a, b);
    Two(Some(p), b, a);
  }

  /** A removal leaves nothing behind that could hold off an older stable sample that arrives after it. */
  lemma ReorderingDiverges<C>(a: Update<C>, b: Update<C>, x: Sample, y: Sample)
    requires a.samples == [x] && b.samples == [y] && a.configuration == b.configuration
    requires a.updatedAt < b.updatedAt && x.hash == y.hash && x.updatedAt < y.updatedAt
    requires x.stable && !y.stable
    ensures History(None, [a, b]) == None
    ensures History(None, [b, a]) == Some(Model(a, map[x.hash := x]))
  {
    OneSample(map[x.hash := x], y);
    OneSample(map[], x);
    OneSample(map[], y);
    Two(None, a, b);
    Two(None, b, a);
  }

  /** Stable samples are lost too: an older model that arrives late is skipped with all it holds. */
  lemma LateModelIsLost<C>(a: Update<C>, b: Update<C>, x: Sample, y: Sample)
    requires a.samples == [x] && b.samples == [y] && a.configuration == b.configuration
    requires a.updatedAt < b.updatedAt && x.hash != y.hash && x.stable && y.stable
    ensures History(None, [a, b]) == Some(Model(b, map[x.hash := x, y.hash := y]))
    ensures History(None, [b, a]) == Some(Model(b, map[y.hash := y]))
  {
    OneSample(map[x.hash := x], y);
    OneSample(map[], x);
    OneSample(map[], y);
    Two(None, a, b);
    Two(None, b, a);
  }

  lemma OneSample(m: map<int, Sample>, s: Sample)
    ensures MergeSamples(m, [s]) == MergeSample(m, s)
    ensures NewSamples([s]) == if s.stable then map[s.hash := s] else map[]
  {
    assert [s][..0] == [];
  }

  lemma Two<C>(prev: Option<Model<C>>, a: Update<C>, b: Update<C>)
    ensures History(prev, [a, b]) == MergeModel(MergeModel(prev, a), b)
  {
    One(prev, a);
    assert [a, b][..1] == [a];
  }

  lemma One<C>(prev: Option<Model<C>>, a: Update<C>)
    ensures History(prev, [a]) == MergeModel(prev, a)
  {
    assert [a][..0] == [];
  }
}
