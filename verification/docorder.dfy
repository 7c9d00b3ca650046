/** The order in which pipeline documents are planned: ascending by name, as Go
    compares strings. Go compares the UTF-8 bytes; UTF-8 preserves the order of
    code points, so comparing characters gives the same answer
    (server/procBuilder.go, the sort at the top of Build). */
module DocOrder {
  import opened Model

  /** Lexicographic strict order on strings. */
  predicate Less(a: string, b: string)
    decreases |a|
  {
    if |a| == 0 then |b| > 0
    else if |b| == 0 then false
    else if a[0] != b[0] then a[0] < b[0]
    else Less(a[1..], b[1..])
  }

  lemma {:induction false} LessIrreflexive(a: string)
    ensures !Less(a, a)
    decreases |a|
  {
    if |a| > 0 {
      LessIrreflexive(a[1..]);
    }
  }

  lemma {:induction false} LessAsymmetric(a: string, b: string)
    ensures Less(a, b) ==> !Less(b, a)
    decreases |a|
  {
    if |a| > 0 && |b| > 0 && a[0] == b[0] {
      LessAsymmetric(a[1..], b[1..]);
    }
  }

  lemma {:induction false} LessTotal(a: string, b: string)
    ensures a == b || Less(a, b) || Less(b, a)
    decreases |a|
  {
    if |a| > 0 && |b| > 0 && a[0] == b[0] {
      LessTotal(a[1..], b[1..]);
      if a[1..] == b[1..] {
        assert a == [a[0]] + a[1..] && b == [b[0]] + b[1..];
      }
    }
  }

  lemma {:induction false} LessTransitive(a: string, b: string, c: string)
    requires Less(a, b) && Less(b, c)
    ensures Less(a, c)
    decreases |a|
  {
    if |a| > 0 && a[0] == b[0] && b[0] == c[0] {
      LessTransitive(a[1..], b[1..], c[1..]);
    }
  }

  /** `a` may come before `b`: `b` is not strictly smaller. */
  predicate NotAfter(a: string, b: string) {
    !Less(b, a)
  }

  lemma NotAfterTransitive(a: string, b: string, c: string)
    requires NotAfter(a, b) && NotAfter(b, c)
    ensures NotAfter(a, c)
  {
    if Less(c, a) {
      LessTotal(a, b);
      if a == b {
      } else if Less(a, b) {
        LessTransitive(c, a, b);
      } else {
      }
    }
  }

  /** Documents in ascending name order. */
  ghost predicate SortedByName(docs: seq<Document>) {
    forall i, j :: 0 <= i < j < |docs| ==> NotAfter(docs[i].name, docs[j].name)
  }

  /** Inserts `d` before the first document whose name is not smaller than its own. */
  function Insert(d: Document, docs: seq<Document>): (r: seq<Document>)
    requires SortedByName(docs)
    ensures SortedByName(r)
    ensures multiset(r) == multiset(docs) + multiset{d}
    ensures |r| > 0 && (r[0] == d || (|docs| > 0 && r[0] == docs[0]))
  {
    if |docs| == 0 || NotAfter(d.name, docs[0].name) then
      var r := [d] + docs;
      assert SortedByName(r) by {
        forall i, j | 0 <= i < j < |r|
          ensures NotAfter(r[i].name, r[j].name)
        {
          if i == 0 && j > 1 {
            NotAfterTransitive(d.name, docs[0].name, docs[j - 1].name);
          }
        }
      }
      r
    else
      assert docs == [docs[0]] + docs[1..];
      var rest := Insert(d, docs[1..]);
      var r := [docs[0]] + rest;
      assert SortedByName(r) by {
        LessTotal(d.name, docs[0].name);
        LessAsymmetric(docs[0].name, d.name);
        forall j | 1 < j < |r|
          ensures NotAfter(r[0].name, r[j].name)
        {
          NotAfterTransitive(docs[0].name, rest[0].name, rest[j - 1].name);
        }
      }
      r
  }

  /** The documents sorted by name: a permutation of the input in ascending order. */
  function SortByName(docs: seq<Document>): (r: seq<Document>)
    ensures SortedByName(r)
    ensures multiset(r) == multiset(docs)
    ensures |r| == |docs|
  {
    if |docs| == 0 then []
    else
      assert docs == [docs[0]] + docs[1..];
      Insert(docs[0], SortByName(docs[1..]))
  }
}
