/**
 * The QR code entry shared by the browser client and the API, and the two
 * array operations the client applies to its collection: locating an entry
 * by id (`Array.prototype.find`) and dropping every entry with an id
 * (`Array.prototype.filter`).
 */
module QrEntries {
  import opened Wrappers

  /** One QR code. `documentUrl` is an external link or an inlined data URI;
      `documentType` is the file's MIME type or the marker "url". */
  datatype Entry = Entry(
    id: string,
    title: string,
    documentUrl: Option<string>,
    documentType: Option<string>,
    createdAt: string)

  /** Index of the FIRST entry whose id is `id`, the entry `find` returns. */
  function FindIndex(s: seq<Entry>, id: string): (r: Option<nat>)
    ensures r.Some? ==> r.value < |s| && s[r.value].id == id
    ensures r.Some? ==> forall j :: 0 <= j < r.value ==> s[j].id != id
    ensures r.None? <==> forall j :: 0 <= j < |s| ==> s[j].id != id
  {
    if |s| == 0 then None
    else if s[0].id == id then Some(0)
    else match FindIndex(s[1..], id)
      case None => None
      case Some(k) => Some(k + 1)
  }

  /** The entries whose id is not `id`, as `filter(qr => qr.id !== id)` keeps them. */
  function WithoutId(s: seq<Entry>, id: string): (r: seq<Entry>)
    ensures |r| <= |s|
    ensures forall e :: e in r <==> e in s && e.id != id
  {
    if |s| == 0 then []
    else if s[0].id == id then WithoutId(s[1..], id)
    else [s[0]] + WithoutId(s[1..], id)
  }

  /** `a` can be obtained from `b` by deleting elements: the relative order of `b` is kept. */
  predicate IsSubsequence(a: seq<Entry>, b: seq<Entry>)
    decreases |b|
  {
    if |a| == 0 then true
    else if |b| == 0 then false
    else (a[0] == b[0] && IsSubsequence(a[1..], b[1..])) || IsSubsequence(a, b[1..])
  }

  /** Removing by id keeps the surviving entries in their original relative order. */
  lemma {:induction false} WithoutIdKeepsOrder(s: seq<Entry>, id: string)
    ensures IsSubsequence(WithoutId(s, id), s)
  {
    if |s| > 0 {
      WithoutIdKeepsOrder(s[1..], id);
      var r := WithoutId(s, id);
      if s[0].id != id {
        assert r[0] == s[0] && r[1..] == WithoutId(s[1..], id);
      }
    }
  }

  /** Removing by id deletes every copy of an entry with that id and keeps every
      other entry as often as it occurred. */
  lemma {:induction false} WithoutIdCounts(s: seq<Entry>, id: string)
    ensures forall e :: multiset(WithoutId(s, id))[e] == if e.id == id then 0 else multiset(s)[e]
  {
    if |s| > 0 {
      WithoutIdCounts(s[1..], id);
      assert s == [s[0]] + s[1..];
      assert multiset(s) == multiset([s[0]]) + multiset(s[1..]);
      if s[0].id != id {
        assert multiset(WithoutId(s, id)) == multiset([s[0]]) + multiset(WithoutId(s[1..], id));
      }
    }
  }

  /** Removing an id that no entry carries changes nothing. */
  lemma {:induction false} WithoutAbsentId(s: seq<Entry>, id: string)
    requires forall j :: 0 <= j < |s| ==> s[j].id != id
    ensures WithoutId(s, id) == s
  {
    if |s| > 0 {
      WithoutAbsentId(s[1..], id);
      assert s == [s[0]] + s[1..];
    }
  }

  /** Removing the same id twice is the same as removing it once. */
  lemma WithoutIdIdempotent(s: seq<Entry>, id: string)
    ensures WithoutId(WithoutId(s, id), id) == WithoutId(s, id)
  {
    var r := WithoutId(s, id);
    forall j | 0 <= j < |r| ensures r[j].id != id {
      assert r[j] in r;
    }
    WithoutAbsentId(r, id);
  }

  /** Two collections whose ids agree position by position locate an id at the same index. */
  lemma {:induction false} FindIndexSameIds(s: seq<Entry>, t: seq<Entry>, id: string)
    requires |s| == |t|
    requires forall j :: 0 <= j < |s| ==> s[j].id == t[j].id
    ensures FindIndex(s, id) == FindIndex(t, id)
  {
    if |s| > 0 && s[0].id != id {
      FindIndexSameIds(s[1..], t[1..], id);
    }
  }
}
