/**
 * The memo API: a module-level list of memos and an id counter. `GET` lists the memos, optionally
 * only those whose text contains the query `q`; `POST` trims and checks the text and appends.
 */
module Memos {
  import opened Optional
  import opened Text
  import opened Lists

  datatype Memo = Memo(id: int, text: string, createdAt: string)

  function MemoId(m: Memo): int { m.id }

  /** What `POST` answers: 201 with the new memo, or 400 with an error. */
  datatype PostResult =
    | Posted(status: int, memo: Memo)
    | PostFailed(status: int, error: string)

  const MinTextLength := 2
  const TextError := "메모는 2자 이상"

  const Seed: seq<Memo> := [
    Memo(1, "Svelte 5 학습하기", "2026-02-20T10:00:00Z"),
    Memo(2, "API 라우트 이해하기", "2026-02-20T11:00:00Z")
  ]
  const SeedNextId := 3

  /** Ids are unique and below the counter, and every stored text is trimmed. */
  ghost predicate MemosValid(memos: seq<Memo>, nextId: int) {
    UniqueKeys(memos, MemoId) && KeysBelow(memos, MemoId, nextId) &&
    forall i :: 0 <= i < |memos| ==> IsTrimmed(memos[i].text)
  }

  /** A stored text is already trimmed: trimming it again gives it back unchanged. */
  lemma StoredTextsTrimmed(memos: seq<Memo>, nextId: int)
    requires MemosValid(memos, nextId)
    ensures forall m :: m in memos ==> Trim(m.text) == m.text
  {
    forall m | m in memos ensures Trim(m.text) == m.text {
      TrimOfTrimmed(m.text);
    }
  }

  /** The memos whose text contains `q` (the filter of `GET`). */
  predicate Matches(q: string, m: Memo) {
    Includes(m.text, q)
  }

  class MemoStore {
    var memos: seq<Memo>
    var nextId: int

    ghost predicate Valid()
      reads this
    {
      MemosValid(memos, nextId)
    }

    constructor ()
      ensures Valid() && memos == Seed && nextId == SeedNextId
    {
      memos := Seed;
      nextId := SeedNextId;
      assert IsTrimmed(Seed[0].text) && IsTrimmed(Seed[1].text);
    }

    /**
     * `GET`: with no query or an empty one, every memo; otherwise exactly the memos whose text
     * contains the query, in their stored order. `total` is the number returned. Nothing changes.
     */
    method Get(q: Option<string>) returns (results: seq<Memo>, total: int)
      ensures q.None? || q.value == [] ==> results == memos
      ensures q.Some? && q.value != [] ==>
        results == Filter(memos, (m: Memo) => Matches(q.value, m)) &&
        forall m :: m in results <==> m in memos && exists i :: OccursAt(m.text, q.value, i)
      ensures total == |results|
    {
      if q.Some? && q.value != [] {
        results := Filter(memos, (m: Memo) => Matches(q.value, m));
        forall m | m in memos {
          IncludesIff(m.text, q.value);
        }
      } else {
        results := memos;
      }
      total := |results|;
    }

    /**
     * `POST`: a missing text, or one whose trimmed form is shorter than two characters, answers 400
     * and changes nothing; otherwise the trimmed text is stored under the next id and returned
     * with 201.
     */
    method Post(text: Option<string>, createdAt: string) returns (r: PostResult)
      requires Valid()
      modifies this
      ensures Valid()
      ensures if text.None? || |Trim(text.value)| < MinTextLength then
          r == PostFailed(400, TextError) && memos == old(memos) && nextId == old(nextId)
        else
          var memo := Memo(old(nextId), Trim(text.value), createdAt);
          r == Posted(201, memo) && memos == old(memos) + [memo] && nextId == old(nextId) + 1
    {
      if text.None? || |Trim(text.value)| < MinTextLength {
        return PostFailed(400, TextError);
      }
      var memo := Memo(nextId, Trim(text.value), createdAt);
      AppendFresh(memos, memo, MemoId, nextId);
      memos := memos + [memo];
      nextId := nextId + 1;
      r := Posted(201, memo);
    }
  }
}
