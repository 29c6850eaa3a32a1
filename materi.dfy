/** The study-material index: the seven subtests, the per-table counts
    gathered one query at a time (a failed query counts 0), and the cards
    built from them with a default of 0. */
module Materi {
  import opened Js

  datatype Subtest = Subtest(id: int, title: Str, subtitle: Str, href: Str, table: Str)

  const Subtests: seq<Subtest> := [
    Subtest(1, "Penalaran Umum", "Logika & Analisis", "/materi/pu", "materi_pu"),
    Subtest(2, "Pengetahuan Kuantitatif", "Matematika Dasar", "/materi/pk", "materi_pk"),
    Subtest(3, "Pemahaman Baca dan Menulis", "Penguasaan penulisan dengan kaidah yang benar", "/materi/pbm", "materi_pbm"),
    Subtest(4, "Pengetahuan & Pemahaman Umum", "Pengetahuan & Pemahaman", "/materi/ppu", "materi_ppu"),
    Subtest(5, "Literasi Bahasa Indonesia", "Kemampuan memahami teks Indonesia", "/materi/lbi", "materi_lbi"),
    Subtest(6, "Literasi Bahasa Inggris", "Kemampuan memahami teks Inggris", "/materi/lbe", "materi_lbe"),
    Subtest(7, "Penalaran Matematika", "Kemampuan berpikir logis matematis", "/materi/pm", "materi_pm")]

  /** The seven subtests have distinct ids and distinct tables. */
  lemma SubtestsDistinct()
    ensures |Subtests| == 7
    ensures forall i, j :: 0 <= i < j < |Subtests| ==> Subtests[i].id != Subtests[j].id
    ensures forall i, j :: 0 <= i < j < |Subtests| ==> Subtests[i].table != Subtests[j].table
  {
  }

  /** One head-only count query's outcome: the reported count (possibly
      null) and whether it failed. */
  datatype CountResult = CountResult(count: Option<int>, error: bool)

  /** The value stored for one table: 0 on error, otherwise the count as
      reported. */
  function StoredCount(r: CountResult): (c: Option<int>)
    ensures r.error ==> c == Some(0)
    ensures !r.error ==> c == r.count
  {
    if r.error then Some(0) else r.count
  }

  /** The dictionary holds, for each of the first `n` subtests, the stored
      count of its query, and nothing else. */
  predicate CountsFor(counts: map<Str, Option<int>>, results: seq<CountResult>, n: nat)
    requires n <= |Subtests| && |results| == |Subtests|
  {
    && (forall t :: t in counts ==> exists i :: 0 <= i < n && Subtests[i].table == t)
    && (forall i :: 0 <= i < n ==> Subtests[i].table in counts && counts[Subtests[i].table] == StoredCount(results[i]))
  }

  /** `fetchCounts`' loop: the queries run one after another in subtest
      order, `results[i]` being the outcome of the i-th. */
  method BuildCounts(results: seq<CountResult>) returns (counts: map<Str, Option<int>>)
    requires |results| == |Subtests|
    ensures CountsFor(counts, results, |Subtests|)
  {
    SubtestsDistinct();
    counts := map[];
    var i := 0;
    while i < |Subtests|
      invariant 0 <= i <= |Subtests|
      invariant CountsFor(counts, results, i)
    {
      counts := counts[Subtests[i].table := StoredCount(results[i])];
      i := i + 1;
    }
  }

  /** A card: the subtest with its `questionCount`. */
  datatype Card = Card(subtest: Subtest, questionCount: int)

  /** `counts[table] ?? 0`: a missing key and a null value both read 0. */
  function CountOr0(counts: map<Str, Option<int>>, table: Str): (n: int)
    ensures table in counts && counts[table].Some? ==> n == counts[table].value
    ensures !(table in counts && counts[table].Some?) ==> n == 0
  {
    if table in counts && counts[table].Some? then counts[table].value else 0
  }

  /** `subtestDataMateri`: one card per subtest, in order, each subtest
      copied unchanged. */
  function Cards(counts: map<Str, Option<int>>): (r: seq<Card>)
    ensures |r| == |Subtests|
    ensures forall i :: 0 <= i < |r| ==>
      r[i].subtest == Subtests[i] && r[i].questionCount == CountOr0(counts, Subtests[i].table)
  {
    seq(|Subtests|, i requires 0 <= i < |Subtests| => Card(Subtests[i], CountOr0(counts, Subtests[i].table)))
  }

  /** Every card starts at 0, before any count arrives. */
  lemma CardsBeforeFetch(i: int)
    requires 0 <= i < |Subtests|
    ensures Cards(map[])[i].questionCount == 0
  {
  }

  /** After a fetch, a card shows 0 for a failed or null query and the
      reported count otherwise. */
  lemma CardsAfterFetch(counts: map<Str, Option<int>>, results: seq<CountResult>, i: int)
    requires |results| == |Subtests| && CountsFor(counts, results, |Subtests|)
    requires 0 <= i < |Subtests|
    ensures Cards(counts)[i].questionCount ==
      if results[i].error || results[i].count.None? then 0 else results[i].count.value
  {
  }

  class MateriPage {
    var counts: map<Str, Option<int>>
    var dataReady: bool
    var mounted: bool

    constructor ()
      ensures counts == map[] && !dataReady && mounted
    {
      counts, dataReady, mounted := map[], false, true;
    }

    /** The mount effect: gather the counts, then store them and mark the
      data ready only if still mounted. */
    method FetchCounts(results: seq<CountResult>)
      requires |results| == |Subtests|
      modifies this`counts, this`dataReady
      ensures mounted ==> CountsFor(counts, results, |Subtests|) && dataReady
      ensures !mounted ==> counts == old(counts) && dataReady == old(dataReady)
    {
      var gathered := BuildCounts(results);
      if mounted {
        counts := gathered;
        dataReady := true;
      }
    }

    method Unmount()
      modifies this`mounted
      ensures !mounted
    {
      mounted := false;
    }

    function Shown(): seq<Card>
      reads this
    {
      Cards(counts)
    }
  }
}
