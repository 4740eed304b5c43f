/**
 * The feedback board: a module-level list of feedback entries and an id counter. `create` checks
 * the name, then the message, and appends; `delete` removes an entry by id.
 */
module Feedback {
  import opened Optional
  import opened Lists

  datatype Entry = Entry(id: int, name: string, message: string, rating: int)

  function EntryId(e: Entry): int { e.id }

  /**
   * What `create` answers: `{ success: true }`, or `fail(400, { name, message, rating, error })`
   * with the fields exactly as submitted.
   */
  datatype CreateResult =
    | Created
    | CreateFailed(status: int, name: Option<string>, message: Option<string>, rating: int, error: string)

  const MinNameLength := 2
  const MinMessageLength := 5
  const NameError := "이름은 2자 이상"
  const MessageError := "메시지는 5자 이상"

  const Seed: seq<Entry> := [Entry(1, "홍길동", "Svelte 5 최고!", 5)]
  const SeedNextId := 2

  /** Ids are unique and below the counter. */
  ghost predicate EntriesValid(entries: seq<Entry>, nextId: int) {
    UniqueKeys(entries, EntryId) && KeysBelow(entries, EntryId, nextId)
  }

  /** A field that is present and at least `min` characters long (neither is trimmed). */
  predicate LongEnough(field: Option<string>, min: nat) {
    field.Some? && |field.value| >= min
  }

  /**
   * The validation chain of `create`: the name is checked first, the message only when the name
   * passed. `None` means the submission is accepted.
   */
  function Check(name: Option<string>, message: Option<string>): (r: Option<string>)
    ensures r == Some(NameError) <==> !LongEnough(name, MinNameLength)
    ensures r == Some(MessageError) <==> LongEnough(name, MinNameLength) && !LongEnough(message, MinMessageLength)
    ensures r == None <==> LongEnough(name, MinNameLength) && LongEnough(message, MinMessageLength)
  {
    if !LongEnough(name, MinNameLength) then Some(NameError)
    else if !LongEnough(message, MinMessageLength) then Some(MessageError)
    else None
  }

  class Board {
    var entries: seq<Entry>
    var nextId: int

    ghost predicate Valid()
      reads this
    {
      EntriesValid(entries, nextId)
    }

    constructor ()
      ensures Valid() && entries == Seed && nextId == SeedNextId
    {
      entries := Seed;
      nextId := SeedNextId;
    }

    /** `load`: a copy of the current entries. */
    method Load() returns (r: seq<Entry>)
      ensures r == entries
    {
      r := entries;
    }

    /**
     * `actions.create`: a refused submission answers 400 with every field echoed and changes
     * nothing; an accepted one is appended as given (no trimming, rating unchecked) under the next
     * id.
     */
    method Create(name: Option<string>, message: Option<string>, rating: int) returns (r: CreateResult)
      requires Valid()
      modifies this
      ensures Valid()
      ensures match Check(name, message)
        case Some(error) =>
          r == CreateFailed(400, name, message, rating, error) &&
          entries == old(entries) && nextId == old(nextId)
        case None =>
          r == Created &&
          entries == old(entries) + [Entry(old(nextId), name.value, message.value, rating)] &&
          nextId == old(nextId) + 1
    {
      if name.None? || |name.value| < MinNameLength {
        return CreateFailed(400, name, message, rating, NameError);
      }
      if message.None? || |message.value| < MinMessageLength {
        return CreateFailed(400, name, message, rating, MessageError);
      }
      var entry := Entry(nextId, name.value, message.value, rating);
      AppendFresh(entries, entry, EntryId, nextId);
      entries := entries + [entry];
      nextId := nextId + 1;
      r := Created;
    }

    /**
     * `actions.delete`: removes the first entry with that id and keeps the rest in order; an
     * unknown id changes nothing. Because ids are unique, that is every entry with another id.
     */
    method Delete(id: int)
      requires Valid()
      modifies this
      ensures Valid()
      ensures entries == DeleteFirst(old(entries), EntryId, id) && nextId == old(nextId)
      ensures entries == Filter(old(entries), (e: Entry) => e.id != id)
    {
      var i := FirstIndex(entries, EntryId, id);
      if i != -1 {
        entries := RemoveAt(entries, i);
      }
      DeleteFirstIsFilter(old(entries), EntryId, id, (e: Entry) => e.id != id);
      FilterKeys(old(entries), (e: Entry) => e.id != id, EntryId, nextId);
    }
  }
}
