/**
 * The service layer (internal/service/service_impl.go): a pass-through to the
 * repository that converts hex ids to object ids and pages to skips. The
 * repository is a collaborator: each operation records the repository calls it
 * makes and is given the repository's answer as an input.
 */
module Service {
  import opened Wrappers
  import opened Errors
  import opened Primitive
  import opened Models
  import opened Strconv

  datatype RepoCall =
    | RepoCreate(data: Jusgo)
    | RepoGet(id: ObjectId)
    | RepoUpdate(data: Jusgo)
    | RepoDelete(id: ObjectId)
    | RepoGetAll(skip: int, limit: int)

  /** The repository calls an operation made and what it returned. */
  datatype Run<T> = Run(calls: seq<RepoCall>, result: Result<T, Error>)

  const TwoTo64: int := 0x1_0000_0000_0000_0000

  /** A 64-bit two's-complement result: Go's `int` arithmetic wraps around. */
  function Wrap64(x: int): (r: int)
    ensures MinInt64 <= r <= MaxInt64
    ensures MinInt64 <= x <= MaxInt64 ==> r == x
    ensures (r - x) % TwoTo64 == 0
  {
    (x - MinInt64) % TwoTo64 + MinInt64
  }

  /**
   * skip := (page - 1) * limit, computed in Go's 64-bit `int`: an int64 that
   * agrees with the exact product modulo 2^64.
   */
  function Skip(page: int, limit: int): (s: int)
    ensures MinInt64 <= s <= MaxInt64
    ensures (s - (page - 1) * limit) % TwoTo64 == 0
  {
    var pred := Wrap64(page - 1);
    var s := Wrap64(pred * limit);
    ScaledCongruence(pred, page - 1, limit, s);
    s
  }

  /** Congruence modulo 2^64 survives multiplying both sides by the same factor. */
  lemma ScaledCongruence(a: int, x: int, factor: int, s: int)
    requires (a - x) % TwoTo64 == 0
    requires (s - a * factor) % TwoTo64 == 0
    ensures (s - x * factor) % TwoTo64 == 0
  {
    var q1 := (a - x) / TwoTo64;
    var q2 := (s - a * factor) / TwoTo64;
    assert a - x == q1 * TwoTo64;
    assert s - a * factor == q2 * TwoTo64;
    assert (a - x) * factor == q1 * factor * TwoTo64;
    assert s - x * factor == (q2 + q1 * factor) * TwoTo64;
    MultipleOfTwoTo64(q2 + q1 * factor);
  }

  lemma MultipleOfTwoTo64(q: int)
    ensures (q * TwoTo64) % TwoTo64 == 0
  {
  }

  /** CreateJoke forwards the document unchanged and returns exactly the repository's answer. */
  function CreateJoke(data: Jusgo, answer: Result<Jusgo, Error>): (r: Run<Jusgo>)
    ensures r.calls == [RepoCreate(data)] && r.result == answer
  {
    Run([RepoCreate(data)], answer)
  }

  /** GetJoke: a bad id is returned as an error before the repository is called. */
  function GetJoke(id: string, answer: Result<Jusgo, Error>): (r: Run<Jusgo>)
    ensures ObjectIdFromHex(id).Failure? ==> r == Run([], Failure(ObjectIdFromHex(id).error))
    ensures ObjectIdFromHex(id).Success? ==> r == Run([RepoGet(ObjectIdFromHex(id).value)], answer)
  {
    match ObjectIdFromHex(id)
    case Failure(err) => Run([], Failure(err))
    case Success(objectId) => Run([RepoGet(objectId)], answer)
  }

  /** GetAllJokes: the repository is asked for `limit` documents after `Skip(page, limit)`. */
  function GetAllJokes(page: int, limit: int, answer: Result<seq<Jusgo>, Error>): (r: Run<seq<Jusgo>>)
    requires MinInt64 <= limit <= MaxInt64
    ensures r.calls == [RepoGetAll(Skip(page, limit), limit)] && r.result == answer
  {
    Run([RepoGetAll(Skip(page, limit), limit)], answer)
  }

  /**
   * UpdateJoke(id, data): a bad id is returned as an error before the
   * repository is called; otherwise only the id of `data` is replaced.
   */
  function UpdateJoke(id: string, data: Jusgo, answer: Result<Jusgo, Error>): (r: Run<Jusgo>)
    ensures ObjectIdFromHex(id).Failure? ==> r == Run([], Failure(ObjectIdFromHex(id).error))
    ensures ObjectIdFromHex(id).Success? ==>
              r == Run([RepoUpdate(data.(id := ObjectIdFromHex(id).value))], answer)
  {
    match ObjectIdFromHex(id)
    case Failure(err) => Run([], Failure(err))
    case Success(objectId) => Run([RepoUpdate(data.(id := objectId))], answer)
  }

  /** DeleteJoke: a bad id is returned as an error before the repository is called. */
  function DeleteJoke(id: string, answer: Option<Error>): (r: Run<()>)
    ensures ObjectIdFromHex(id).Failure? ==> r == Run([], Failure(ObjectIdFromHex(id).error))
    ensures ObjectIdFromHex(id).Success? ==> r.calls == [RepoDelete(ObjectIdFromHex(id).value)]
    ensures ObjectIdFromHex(id).Success? ==> (r.result.Failure? <==> answer.Some?)
  {
    match ObjectIdFromHex(id)
    case Failure(err) => Run([], Failure(err))
    case Success(objectId) =>
      Run([RepoDelete(objectId)], if answer.Some? then Failure(answer.value) else Success(()))
  }

  /** The hex of a document's id reaches the repository as that very id. */
  lemma GetJokeByHex(joke: Jusgo, answer: Result<Jusgo, Error>)
    ensures GetJoke(Hex(joke.id), answer).calls == [RepoGet(joke.id)]
  {
    ObjectIdFromHexOfHex(joke.id);
  }

  /** Updating a document under the hex of its own id sends it to the repository unchanged. */
  lemma UpdateJokeByOwnHex(joke: Jusgo, answer: Result<Jusgo, Error>)
    ensures UpdateJoke(Hex(joke.id), joke, answer).calls == [RepoUpdate(joke)]
  {
    ObjectIdFromHexOfHex(joke.id);
  }

  /** UpdateJoke keeps every field but the id, UpdatedAt included. */
  lemma UpdateJokeKeepsFields(id: string, data: Jusgo, answer: Result<Jusgo, Error>)
    requires ObjectIdFromHex(id).Success?
    ensures var sent := UpdateJoke(id, data, answer).calls[0].data;
            sent.joke == data.joke && sent.createdAt == data.createdAt && sent.updatedAt == data.updatedAt
  {
  }

  /** Within int64, the skip is the exact product (page - 1) * limit, and never negative. */
  lemma SkipExact(page: int, limit: int)
    requires 1 <= page <= MaxInt64 && 1 <= limit <= MaxInt64
    requires (page - 1) * limit <= MaxInt64
    ensures Skip(page, limit) == (page - 1) * limit
    ensures Skip(page, limit) >= 0
  {
    assert (page - 1) * limit >= 0 by {
      assert page - 1 >= 0;
    }
  }

  /** The first page starts at the first document. */
  lemma SkipFirstPage(limit: int)
    requires 1 <= limit <= MaxInt64
    ensures Skip(1, limit) == 0
  {
  }

  /** Consecutive pages are adjacent: page p + 1 starts where page p ends. */
  lemma SkipConsecutive(page: int, limit: int)
    requires 1 <= page < MaxInt64 && 1 <= limit <= MaxInt64
    requires page * limit <= MaxInt64
    ensures Skip(page + 1, limit) == Skip(page, limit) + limit
  {
    assert (page - 1) * limit == page * limit - limit;
    assert (page - 1) * limit <= page * limit;
    SkipExact(page, limit);
    SkipExact(page + 1, limit);
  }

  /** Two different pages of the same limit cover disjoint ranges [skip, skip + limit). */
  lemma PagesDisjoint(p: int, q: int, limit: int)
    requires 1 <= p < q <= MaxInt64 && 1 <= limit <= MaxInt64
    requires (q - 1) * limit <= MaxInt64
    ensures Skip(p, limit) + limit <= Skip(q, limit)
  {
    MulMonotone(p, q - 1, limit);
    MulMonotone(p - 1, q - 1, limit);
    SkipExact(p, limit);
    SkipExact(q, limit);
    assert p * limit == (p - 1) * limit + limit;
  }

  lemma MulMonotone(a: int, b: int, c: int)
    requires 0 <= a <= b && 0 <= c
    ensures a * c <= b * c
  {
    assert b * c - a * c == (b - a) * c;
  }

  /**
   * Past the int64 range the product wraps: page 2^62 + 1 skips nothing with
   * limit 4, and a negative number of documents with limit 2.
   */
  lemma SkipWrapsForHugePages()
    ensures Skip(0x4000_0000_0000_0001, 4) == 0
    ensures Skip(0x4000_0000_0000_0001, 2) == MinInt64
  {
  }
}
