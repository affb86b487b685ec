/**
 * The history aggregator of elm/loadSamples.js (loadSamples): every call counts
 * itself, generates a batch and appends it, database by database, to a table of
 * rolling histories that keeps only the five most recent samples per database.
 *
 * The process-wide `state` and `loadCount` are the fields of class State; the
 * batch time and the random draws that getData would take from the clock and
 * Math.random() are parameters of LoadSamples.
 */
module History {
  import opened Generator

  /** One retained generation of a database: the batch time and its queries. */
  datatype Sample = Sample(time: real, queries: seq<Query>)

  /** The entry kept in state.databases under a database name. */
  datatype Database = Database(name: string, samples: seq<Sample>)

  /** The number of samples kept per database. */
  const MaxSamples := 5

  function Min(a: int, b: int): int {
    if a < b then a else b
  }

  // ---------------------------------------------------------------------------
  // Retention of one database's samples

  /** Drops samples from the front until at most MaxSamples remain. */
  function Retain(s: seq<Sample>): (r: seq<Sample>)
    ensures |r| == Min(|s|, MaxSamples)
    ensures forall i :: 0 <= i < |r| ==> r[i] == s[|s| - |r| + i]
  {
    if |s| > MaxSamples then s[|s| - MaxSamples..] else s
  }

  /** `after` is `before` with `s` added as the newest sample and the oldest samples
      dropped so that at most MaxSamples remain. */
  ghost predicate Appended(before: seq<Sample>, s: Sample, after: seq<Sample>) {
    && |after| == Min(|before| + 1, MaxSamples)
    && after[|after| - 1] == s
    && forall i :: 0 <= i < |after| - 1 ==> after[i] == before[|before| - |after| + 1 + i]
  }

  /** Appending then retaining is exactly the Appended relation: the new sample goes
      last, only the oldest samples are dropped, and nothing else can result. */
  lemma RetainIsAppended(before: seq<Sample>, s: Sample, after: seq<Sample>)
    ensures Appended(before, s, Retain(before + [s]))
    ensures Appended(before, s, after) ==> after == Retain(before + [s])
  {
    var r := Retain(before + [s]);
    if Appended(before, s, after) {
      forall i | 0 <= i < |r| ensures after[i] == r[i] {
        if i < |r| - 1 {
          assert r[i] == (before + [s])[|before| + 1 - |r| + i];
        }
      }
    }
  }

  /** Retaining early loses nothing that retaining late would keep. */
  lemma RetainAppend(s: seq<Sample>, t: seq<Sample>)
    ensures Retain(Retain(s) + t) == Retain(s + t)
  {
  }

  // ---------------------------------------------------------------------------
  // Merging one batch into the table

  /** state.databases[name], created as {name, samples: []} when missing. */
  function Entry(dbs: map<string, Database>, name: string): Database {
    if name in dbs then dbs[name] else Database(name, [])
  }

  /** The entry after pushing sample s and trimming. */
  function Pushed(e: Database, s: Sample): Database {
    e.(samples := Retain(e.samples + [s]))
  }

  /** The sample a batch contributes under `name`. */
  function SampleOf(data: Batch, name: string): Sample
    requires name in data.databases
  {
    Sample(data.startAt, data.databases[name])
  }

  /** The table after the keys in `keys` (all keys of the batch) have been merged. */
  function MergedOn(dbs: map<string, Database>, data: Batch, keys: set<string>): map<string, Database>
    requires keys <= data.databases.Keys
  {
    map k | k in dbs.Keys + keys :: if k in keys then Pushed(Entry(dbs, k), SampleOf(data, k)) else dbs[k]
  }

  /** The table after one batch has been merged: every key of the batch has an entry,
      and the entries of the other keys are untouched. */
  function Merged(dbs: map<string, Database>, data: Batch): (r: map<string, Database>)
    ensures r.Keys == dbs.Keys + data.databases.Keys
    ensures forall k :: k in dbs && k !in data.databases ==> r[k] == dbs[k]
  {
    MergedOn(dbs, data, data.databases.Keys)
  }

  /** The entry of a key of the batch keeps its name (or is created under the key) and
      gets the batch's sample as its newest sample, dropping only the oldest ones. */
  lemma MergedEntry(dbs: map<string, Database>, data: Batch, name: string)
    requires name in data.databases
    ensures name in Merged(dbs, data)
    ensures Merged(dbs, data)[name].name == (if name in dbs then dbs[name].name else name)
    ensures Appended(if name in dbs then dbs[name].samples else [], SampleOf(data, name), Merged(dbs, data)[name].samples)
  {
    var e := Entry(dbs, name);
    assert Merged(dbs, data)[name] == Pushed(e, SampleOf(data, name));
    RetainIsAppended(e.samples, SampleOf(data, name), Retain(e.samples + [SampleOf(data, name)]));
  }

  /** Every entry is filed under its own name and holds at most MaxSamples samples. */
  ghost predicate WellFormed(dbs: map<string, Database>) {
    forall k :: k in dbs ==> dbs[k].name == k && |dbs[k].samples| <= MaxSamples
  }

  /** Merging into the empty table creates one entry per key of the batch, named
      after the key and holding the batch's sample alone. */
  lemma FirstMerge(data: Batch)
    ensures Merged(map[], data).Keys == data.databases.Keys
    ensures forall k :: k in data.databases ==> Merged(map[], data)[k] == Database(k, [SampleOf(data, k)])
  {
  }

  /** A merge keeps every entry under its own name and at most MaxSamples long. */
  lemma MergedWellFormed(dbs: map<string, Database>, data: Batch)
    requires WellFormed(dbs)
    ensures WellFormed(Merged(dbs, data))
  {
  }

  // ---------------------------------------------------------------------------
  // Repeated merges

  /** The table after the batches of `batches` have been merged in order. */
  function MergeAll(dbs: map<string, Database>, batches: seq<Batch>): map<string, Database> {
    if batches == [] then dbs
    else Merged(MergeAll(dbs, batches[..|batches| - 1]), batches[|batches| - 1])
  }

  /** The samples the batches contribute under `name`, oldest first. */
  function SamplesOf(name: string, batches: seq<Batch>): seq<Sample> {
    if batches == [] then []
    else
      var last := batches[|batches| - 1];
      SamplesOf(name, batches[..|batches| - 1]) + if name in last.databases then [SampleOf(last, name)] else []
  }

  /** After any number of merges, a database's history is its old history followed by
      every sample merged into it since, cut to the most recent MaxSamples. */
  lemma {:induction false} MergeAllHistory(dbs: map<string, Database>, batches: seq<Batch>, name: string)
    requires WellFormed(dbs)
    ensures Entry(MergeAll(dbs, batches), name).name == Entry(dbs, name).name
    ensures Entry(MergeAll(dbs, batches), name).samples == Retain(Entry(dbs, name).samples + SamplesOf(name, batches))
  {
    var prior := Entry(dbs, name).samples;
    if batches == [] {
      assert prior + [] == prior;
    } else {
      var init, last := batches[..|batches| - 1], batches[|batches| - 1];
      var before := MergeAll(dbs, init);
      MergeAllHistory(dbs, init, name);
      if name in last.databases {
        var s := SampleOf(last, name);
        MergedEntryIs(before, last, name);
        RetainAppend(prior + SamplesOf(name, init), [s]);
        assert SamplesOf(name, batches) == SamplesOf(name, init) + [s];
        AppendAssoc(prior, SamplesOf(name, init), [s]);
      } else {
        MergedEntryIs(before, last, name);
        assert SamplesOf(name, batches) == SamplesOf(name, init);
      }
    }
  }

  /** Concatenation is associative. */
  lemma AppendAssoc(a: seq<Sample>, b: seq<Sample>, c: seq<Sample>)
    ensures a + (b + c) == (a + b) + c
  {
  }

  /** The entry under `name` after a merge: pushed when the batch has the key,
      untouched otherwise. */
  lemma MergedEntryIs(dbs: map<string, Database>, data: Batch, name: string)
    ensures Entry(Merged(dbs, data), name)
         == if name in data.databases then Pushed(Entry(dbs, name), SampleOf(data, name)) else Entry(dbs, name)
  {
  }

  /** Starting from an empty table, a database present in every batch holds exactly the
      samples of the last min(n, 5) batches, in the order they were merged. */
  lemma MostRecentSamples(batches: seq<Batch>, name: string)
    requires forall i :: 0 <= i < |batches| ==> name in batches[i].databases
    ensures |batches| > 0 ==> name in MergeAll(map[], batches)
    ensures var samples := Entry(MergeAll(map[], batches), name).samples;
      && |samples| == Min(|batches|, MaxSamples)
      && forall i :: 0 <= i < |samples| ==>
           samples[i] == SampleOf(batches[|batches| - |samples| + i], name)
  {
    MergeAllHistory(map[], batches, name);
    SamplesOfAll(batches, name);
    assert [] + SamplesOf(name, batches) == SamplesOf(name, batches);
  }

  /** When every batch has the key, each batch contributes exactly one sample. */
  lemma {:induction false} SamplesOfAll(batches: seq<Batch>, name: string)
    requires forall i :: 0 <= i < |batches| ==> name in batches[i].databases
    ensures |SamplesOf(name, batches)| == |batches|
    ensures forall i :: 0 <= i < |batches| ==> SamplesOf(name, batches)[i] == SampleOf(batches[i], name)
  {
    if batches != [] {
      SamplesOfAll(batches[..|batches| - 1], name);
    }
  }

  // ---------------------------------------------------------------------------
  // The process-wide state

  class State {
    /** ENV.rows: the number of cluster pairs every batch has. */
    const rows: nat
    /** state.databases */
    var databases: map<string, Database>
    var loadCount: int

    ghost predicate Valid()
      reads this
    {
      WellFormed(databases) && loadCount >= 0
    }

    constructor (rows: nat)
      ensures Valid()
      ensures this.rows == rows && databases == map[] && loadCount == 0
    {
      this.rows := rows;
      databases := map[];
      loadCount := 0;
    }

    /** One refresh: count it, generate a batch and merge it into the table. */
    method LoadSamples(startAt: real, rand: nat -> real) returns (ghost newData: Batch)
      requires Valid()
      modifies this
      ensures Valid()
      ensures loadCount == old(loadCount) + 1
      ensures Generated(newData, rows, startAt, rand)
      ensures databases == Merged(old(databases), newData)
    {
      loadCount := loadCount + 1;
      var data := GetData(rows, startAt, rand);
      newData := data;
      ClusterNamesDistinct(rows);
      MergeBatch(data);
      MergedWellFormed(old(databases), data);
    }

    /** The per-database pass of loadSamples over the keys of the batch. */
    method MergeBatch(data: Batch)
      requires Distinct(data.names)
      requires forall k :: k in data.databases <==> k in data.names
      modifies this`databases
      ensures databases == Merged(old(databases), data)
    {
      ghost var before := databases;
      ghost var merged: set<string> := {};
      var names := data.names;
      for j := 0 to |names|
        invariant merged <= data.databases.Keys
        invariant forall t :: 0 <= t < j ==> names[t] in merged
        invariant forall t :: j <= t < |names| ==> names[t] !in merged
        invariant databases == MergedOn(before, data, merged)
      {
        var name := names[j];
        var sampleInfo := data.databases[name];
        MergedOnStep(before, data, merged, name);
        PushSample(name, Sample(data.startAt, sampleInfo));
        merged := merged + {name};
      }
      assert merged == data.databases.Keys;
    }

    /** The callback body for one key: create the entry when it is missing, push the
        sample and cut the samples to the MaxSamples most recent. */
    method PushSample(name: string, sample: Sample)
      modifies this`databases
      ensures databases == old(databases)[name := Pushed(Entry(old(databases), name), sample)]
    {
      if name !in databases {
        databases := databases[name := Database(name, [])];
      }
      var samples := databases[name].samples;
      samples := samples + [sample];
      if |samples| > MaxSamples {
        samples := samples[|samples| - MaxSamples..];
      }
      databases := databases[name := databases[name].(samples := samples)];
    }
  }

  /** Merging one more key of the batch updates exactly that key's entry. */
  lemma MergedOnStep(dbs: map<string, Database>, data: Batch, keys: set<string>, name: string)
    requires keys <= data.databases.Keys && name in data.databases && name !in keys
    ensures var cur := MergedOn(dbs, data, keys);
      MergedOn(dbs, data, keys + {name}) == cur[name := Pushed(Entry(cur, name), SampleOf(data, name))]
  {
    var cur := MergedOn(dbs, data, keys);
    var next := MergedOn(dbs, data, keys + {name});
    var upd := cur[name := Pushed(Entry(cur, name), SampleOf(data, name))];
    assert Entry(cur, name) == Entry(dbs, name);
    assert next.Keys == upd.Keys;
    forall k | k in next ensures next[k] == upd[k] {
    }
  }
}
