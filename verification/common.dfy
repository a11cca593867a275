/** Shared value types of the admin dashboard model: optional values, the
    outcome of a call to the REST API, and the paginated page shape that the
    list endpoints return. */
module Common {

  datatype Option<T> = None | Some(value: T)

  /** The `data` of an error response, as the dashboard inspects it: absent,
      a bare string, or a JSON object with optional `message`, `error` and
      `banReason` members. */
  datatype ErrorBody =
    | NoBody
    | TextBody(text: string)
    | JsonBody(message: Option<string>, error: Option<string>, banReason: Option<string>)

  /** A failed request. `status` is None when no response arrived at all
      (network failure, the 30-second timeout). */
  datatype HttpError = HttpError(status: Option<int>, body: ErrorBody)

  /** What an awaited API call produced: its response data, or the error it
      was rejected with. Every handler of the model takes one of these as a
      parameter in place of the network. */
  datatype Outcome<T> = Success(data: T) | Failure(err: HttpError)

  /** The four pagination fields every list page keeps in its state. */
  datatype Pagination = Pagination(currentPage: int, totalPages: int, totalElements: int, size: int)

  /** The body of a paginated list endpoint. */
  datatype PageResponse<T> = PageResponse(content: seq<T>, number: int, totalPages: int, totalElements: int, size: int)

  /** The pagination state a page stores after a successful fetch: all four
      fields are read from the same response. */
  function PaginationOf<T>(r: PageResponse<T>): (p: Pagination)
    ensures p.currentPage == r.number && p.totalPages == r.totalPages
    ensures p.totalElements == r.totalElements && p.size == r.size
  {
    Pagination(r.number, r.totalPages, r.totalElements, r.size)
  }

  /** JavaScript truthiness of an optional string: present and non-empty. */
  predicate Truthy(s: Option<string>) {
    s.Some? && s.value != ""
  }

  /** The elements of `s` that satisfy `p`, in order (Array.prototype.filter). */
  function Filter<T>(s: seq<T>, p: T -> bool): (r: seq<T>)
    ensures |r| <= |s|
    ensures forall x :: x in r ==> x in s && p(x)
    ensures forall x :: x in s && p(x) ==> x in r
  {
    if s == [] then []
    else if p(s[0]) then [s[0]] + Filter(s[1..], p)
    else Filter(s[1..], p)
  }

  /** `sub` can be obtained from `s` by deleting elements (order kept). */
  predicate IsSubsequence<T(==)>(sub: seq<T>, s: seq<T>)
    decreases |s|
  {
    if s == [] then sub == []
    else (sub != [] && sub[0] == s[0] && IsSubsequence(sub[1..], s[1..])) || IsSubsequence(sub, s[1..])
  }

  lemma {:induction false} FilterIsSubsequence<T>(s: seq<T>, p: T -> bool)
    ensures IsSubsequence(Filter(s, p), s)
  {
    if s != [] {
      FilterIsSubsequence(s[1..], p);
      if p(s[0]) {
        assert Filter(s, p)[1..] == Filter(s[1..], p);
      }
    }
  }

  /** Every sequence is a subsequence of itself. */
  lemma {:induction false} SubsequenceRefl<T>(s: seq<T>)
    ensures IsSubsequence(s, s)
  {
    if s != [] {
      SubsequenceRefl(s[1..]);
    }
  }

  lemma {:induction false} PrefixIsSubsequence<T>(s: seq<T>, k: nat)
    requires k <= |s|
    ensures IsSubsequence(s[..k], s)
    decreases |s|
  {
    if s != [] {
      if k == 0 {
        PrefixIsSubsequence(s[1..], 0);
        assert s[..0] == s[1..][..0];
      } else {
        PrefixIsSubsequence(s[1..], k - 1);
        assert s[..k][1..] == s[1..][..k - 1];
      }
    }
  }

  lemma {:induction false} SubsequenceTransitive<T>(a: seq<T>, b: seq<T>, c: seq<T>)
    requires IsSubsequence(a, b) && IsSubsequence(b, c)
    ensures IsSubsequence(a, c)
    decreases |c|
  {
    if c != [] {
      if b != [] && b[0] == c[0] && IsSubsequence(b[1..], c[1..]) {
        if a != [] && a[0] == b[0] && IsSubsequence(a[1..], b[1..]) {
          SubsequenceTransitive(a[1..], b[1..], c[1..]);
        } else {
          SubsequenceTransitive(a, b[1..], c[1..]);
        }
      } else {
        SubsequenceTransitive(a, b, c[1..]);
      }
    }
  }

  lemma {:induction false} FilterAppend<T>(a: seq<T>, b: seq<T>, p: T -> bool)
    ensures Filter(a + b, p) == Filter(a, p) + Filter(b, p)
  {
    if a != [] {
      assert (a + b)[0] == a[0] && (a + b)[1..] == a[1..] + b;
      FilterAppend(a[1..], b, p);
      if p(a[0]) {
        calc {
          Filter(a + b, p);
          [a[0]] + Filter(a[1..] + b, p);
          [a[0]] + (Filter(a[1..], p) + Filter(b, p));
          ([a[0]] + Filter(a[1..], p)) + Filter(b, p);
        }
      }
    } else {
      assert a + b == b;
    }
  }

  /** Nothing is kept from a sequence none of whose elements satisfies `p`. */
  lemma {:induction false} FilterNone<T>(s: seq<T>, p: T -> bool)
    requires forall i :: 0 <= i < |s| ==> !p(s[i])
    ensures Filter(s, p) == []
  {
    if s != [] {
      FilterNone(s[1..], p);
    }
  }

  /** Everything is kept from a sequence all of whose elements satisfy `p`. */
  lemma {:induction false} FilterAll<T>(s: seq<T>, p: T -> bool)
    requires forall i :: 0 <= i < |s| ==> p(s[i])
    ensures Filter(s, p) == s
  {
    if s != [] {
      FilterAll(s[1..], p);
    }
  }

  /** `list.map(x => x.id === id ? updated : x)`: every element whose id
      (read by `idOf`) is `id` becomes `updated`, the others stay. */
  function ReplaceById<T>(xs: seq<T>, idOf: T -> int, id: int, updated: T): (r: seq<T>)
    ensures |r| == |xs|
    ensures forall i :: 0 <= i < |xs| && idOf(xs[i]) == id ==> r[i] == updated
    ensures forall i :: 0 <= i < |xs| && idOf(xs[i]) != id ==> r[i] == xs[i]
  {
    if xs == [] then []
    else [if idOf(xs[0]) == id then updated else xs[0]] + ReplaceById(xs[1..], idOf, id, updated)
  }

  /** Replacing an id that is not in the list changes nothing. */
  lemma {:induction false} ReplaceAbsentId<T>(xs: seq<T>, idOf: T -> int, id: int, updated: T)
    requires forall i :: 0 <= i < |xs| ==> idOf(xs[i]) != id
    ensures ReplaceById(xs, idOf, id, updated) == xs
  {
    if xs != [] {
      ReplaceAbsentId(xs[1..], idOf, id, updated);
    }
  }

  /** Replacing by the server's copy of an element (same id) keeps every id
      where it was, so a second identical answer changes nothing more. */
  lemma {:induction false} ReplaceByIdIdempotent<T>(xs: seq<T>, idOf: T -> int, updated: T)
    ensures var id := idOf(updated);
      ReplaceById(ReplaceById(xs, idOf, id, updated), idOf, id, updated) == ReplaceById(xs, idOf, id, updated)
  {
    if xs != [] {
      ReplaceByIdIdempotent(xs[1..], idOf, updated);
    }
  }

  /** The number of elements of `s` that satisfy `p`. */
  function Count<T>(s: seq<T>, p: T -> bool): nat {
    |Filter(s, p)|
  }

  lemma {:induction false} CountComplement<T>(s: seq<T>, p: T -> bool)
    ensures Count(s, p) + Count(s, x => !p(x)) == |s|
  {
    if s != [] {
      CountComplement(s[1..], p);
    }
  }
}
