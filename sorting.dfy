/** `sortDocuments` from src/utils/sorting.ts: copy the documents, then sort
    the copy in place, by title or newest first by update time.

    `localeCompare` on titles is a parameter, about which only what a sort
    needs is assumed: that "compares at most 0" is a total preorder. The
    update time `new Date(updatedAt).getTime()` is a parameter too, restricted
    to well-formed dates, so it is an integer. */
module Sorting {

  datatype Contributor = Contributor(id: string, name: string)

  datatype Document = Document(
    id: string,
    title: string,
    updatedAt: string,
    version: string,
    createdAt: string,
    attachments: seq<string>,
    contributors: seq<Contributor>)

  /** `'name' | 'date'` */
  datatype SortBy = Name | Date

  /** A comparator `.sort` can rely on: "`cmp(x, y) <= 0`" (x may come first)
      is total and transitive. */
  ghost predicate ConsistentComparator<T(!new)>(cmp: (T, T) -> int)
  {
    && (forall x, y {:trigger cmp(x, y), cmp(y, x)} :: cmp(x, y) <= 0 || cmp(y, x) <= 0)
    && (forall x, y, z {:trigger cmp(x, y), cmp(y, z), cmp(x, z)} ::
          cmp(x, y) <= 0 && cmp(y, z) <= 0 ==> cmp(x, z) <= 0)
  }

  ghost predicate SortedBy(s: seq<Document>, cmp: (Document, Document) -> int)
  {
    forall i, j :: 0 <= i < j < |s| ==> cmp(s[i], s[j]) <= 0
  }

  /** `(a, b) => a.title.localeCompare(b.title)` */
  function ByTitle(localeCompare: (string, string) -> int): (cmp: (Document, Document) -> int)
  {
    (a: Document, b: Document) => localeCompare(a.title, b.title)
  }

  lemma ByTitleConsistent(localeCompare: (string, string) -> int)
    requires ConsistentComparator(localeCompare)
    ensures ConsistentComparator(ByTitle(localeCompare))
  {
    var cmp := ByTitle(localeCompare);
    forall x, y ensures cmp(x, y) <= 0 || cmp(y, x) <= 0 {
      assert localeCompare(x.title, y.title) <= 0 || localeCompare(y.title, x.title) <= 0;
    }
    forall x, y, z | cmp(x, y) <= 0 && cmp(y, z) <= 0 ensures cmp(x, z) <= 0 {
      assert localeCompare(x.title, y.title) <= 0 && localeCompare(y.title, z.title) <= 0;
    }
  }

  /** `(a, b) => dateB - dateA`: later update times come first. */
  function NewestFirst(timeOf: string -> int): (cmp: (Document, Document) -> int)
    ensures forall a, b :: cmp(a, b) <= 0 <==> timeOf(a.updatedAt) >= timeOf(b.updatedAt)
  {
    (a: Document, b: Document) => timeOf(b.updatedAt) - timeOf(a.updatedAt)
  }

  lemma NewestFirstConsistent(timeOf: string -> int)
    ensures ConsistentComparator(NewestFirst(timeOf))
  {
  }

  /** The first `n` elements are in order. */
  ghost predicate SortedUpTo(s: seq<Document>, n: int, cmp: (Document, Document) -> int)
    requires 0 <= n <= |s|
  {
    forall x, y :: 0 <= x < y < n ==> cmp(s[x], s[y]) <= 0
  }

  /** Halfway through inserting `s[..i + 1]`: the element being moved is at
      `j`, the others of `s[..i + 1]` are in order, and the moved one may
      precede everything after it. */
  ghost predicate Inserting(s: seq<Document>, i: int, j: int, cmp: (Document, Document) -> int)
  {
    && 0 <= j <= i < |s|
    && (forall x, y :: 0 <= x < y <= i && x != j && y != j ==> cmp(s[x], s[y]) <= 0)
    && (forall y :: j < y <= i ==> cmp(s[j], s[y]) <= 0)
  }

  lemma InsertStart(s: seq<Document>, i: int, cmp: (Document, Document) -> int)
    requires 0 <= i < |s| && SortedUpTo(s, i, cmp)
    ensures Inserting(s, i, i, cmp)
  {
  }

  lemma InsertStep(s: seq<Document>, i: int, j: int, cmp: (Document, Document) -> int)
    requires ConsistentComparator(cmp)
    requires Inserting(s, i, j, cmp) && 0 < j && cmp(s[j - 1], s[j]) > 0
    ensures Inserting(s[j - 1 := s[j]][j := s[j - 1]], i, j - 1, cmp)
  {
    assert cmp(s[j], s[j - 1]) <= 0;
  }

  lemma InsertDone(s: seq<Document>, i: int, j: int, cmp: (Document, Document) -> int)
    requires ConsistentComparator(cmp)
    requires Inserting(s, i, j, cmp) && (j == 0 || cmp(s[j - 1], s[j]) <= 0)
    ensures SortedUpTo(s, i + 1, cmp)
  {
    forall x, y | 0 <= x < y <= i ensures cmp(s[x], s[y]) <= 0 {
      if y == j && x < j - 1 {
        assert cmp(s[x], s[j - 1]) <= 0 && cmp(s[j - 1], s[j]) <= 0;
      }
    }
  }

  /** Exchange two elements; the array holds the same documents. */
  method Swap(a: array<Document>, i: int, j: int)
    requires 0 <= i < a.Length && 0 <= j < a.Length
    modifies a
    ensures a[..] == old(a[..])[i := old(a[j])][j := old(a[i])]
    ensures multiset(a[..]) == multiset(old(a[..]))
  {
    a[i], a[j] := a[j], a[i];
  }

  /** One pass of the insertion: move `a[i]` left past every element that
      must come after it. Given `a[..i]` in order, `a[..i + 1]` is in order. */
  method Insert(a: array<Document>, i: int, cmp: (Document, Document) -> int)
    requires 0 <= i < a.Length
    requires ConsistentComparator(cmp) && SortedUpTo(a[..], i, cmp)
    modifies a
    ensures SortedUpTo(a[..], i + 1, cmp)
    ensures multiset(a[..]) == multiset(old(a[..]))
  {
    var j := i;
    InsertStart(a[..], i, cmp);
    while j > 0 && cmp(a[j - 1], a[j]) > 0
      invariant Inserting(a[..], i, j, cmp)
      invariant multiset(a[..]) == multiset(old(a[..]))
    {
      InsertStep(a[..], i, j, cmp);
      Swap(a, j - 1, j);
      j := j - 1;
    }
    InsertDone(a[..], i, j, cmp);
  }

  /** `Array.prototype.sort(cmp)` on `a`, as an insertion sort: afterwards
      `a` is ordered by `cmp` and holds the same documents. */
  method SortInPlace(a: array<Document>, cmp: (Document, Document) -> int)
    requires ConsistentComparator(cmp)
    modifies a
    ensures SortedBy(a[..], cmp)
    ensures multiset(a[..]) == multiset(old(a[..]))
  {
    var i := 0;
    while i < a.Length
      invariant 0 <= i <= a.Length
      invariant SortedUpTo(a[..], i, cmp)
      invariant multiset(a[..]) == multiset(old(a[..]))
    {
      Insert(a, i, cmp);
      i := i + 1;
    }
  }

  /** `[...documents]`: a new array with the same elements. */
  method Copy(documents: array<Document>) returns (copy: array<Document>)
    ensures fresh(copy) && copy[..] == documents[..]
  {
    copy := new Document[documents.Length](i requires 0 <= i < documents.Length reads documents => documents[i]);
  }

  /** A sequence of at most one element is the only one with its contents. */
  lemma ShortPermutationIsEqual(s: seq<Document>, t: seq<Document>)
    requires |t| <= 1 && multiset(s) == multiset(t)
    ensures s == t
  {
    assert |s| == |multiset(s)| == |multiset(t)| == |t|;
    if |t| == 1 {
      assert t == [t[0]];
      assert s[0] in multiset(t);
    }
  }

  /** `sortDocuments(documents, sortBy)`: a new array holding the same
      documents, ordered by title or newest first; the input is not touched. */
  method SortDocuments(documents: array<Document>, sortBy: SortBy,
                       localeCompare: (string, string) -> int, timeOf: string -> int)
    returns (result: array<Document>)
    requires sortBy == Name ==> ConsistentComparator(localeCompare)
    ensures fresh(result)
    ensures multiset(result[..]) == multiset(documents[..])
    ensures sortBy == Name ==>
      forall i, j :: 0 <= i < j < result.Length ==> localeCompare(result[i].title, result[j].title) <= 0
    ensures sortBy == Date ==>
      forall i, j :: 0 <= i < j < result.Length ==> timeOf(result[i].updatedAt) >= timeOf(result[j].updatedAt)
    ensures documents.Length <= 1 ==> result[..] == documents[..]
  {
    var dataCopy := Copy(documents);
    if sortBy == Name {
      var cmp := ByTitle(localeCompare);
      ByTitleConsistent(localeCompare);
      SortInPlace(dataCopy, cmp);
      assert SortedBy(dataCopy[..], cmp);
    } else {
      var cmp := NewestFirst(timeOf);
      NewestFirstConsistent(timeOf);
      SortInPlace(dataCopy, cmp);
      assert SortedBy(dataCopy[..], cmp);
    }
    result := dataCopy;
    if documents.Length <= 1 {
      ShortPermutationIsEqual(result[..], documents[..]);
    }
  }
}
