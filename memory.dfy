/** The agent's memory: a short-term list of recent interactions and a long-term keyed store. */
module Memory {
  import opened Wrappers

  /** `dict.get`: the stored data, or None for an absent key. */
  function Retrieve<D>(store: map<string, D>, key: string): (r: Option<D>)
    ensures r.Some? <==> key in store
    ensures r.Some? ==> r.value == store[key]
  {
    if key in store then Some(store[key]) else None
  }

  /** A stored value is what a later retrieve of its key returns. */
  lemma RetrieveAfterStore<D>(store: map<string, D>, key: string, data: D)
    ensures Retrieve(store[key := data], key) == Some(data)
  {
  }

  /** Storing under one key leaves every other key's data as it was. */
  lemma StoreKeepsOthers<D>(store: map<string, D>, key: string, data: D, other: string)
    requires other != key
    ensures Retrieve(store[key := data], other) == Retrieve(store, other)
  {
  }

  /** A second store under the same key overwrites the first. */
  lemma StoreOverwrites<D>(store: map<string, D>, key: string, first: D, second: D)
    ensures store[key := first][key := second] == store[key := second]
  {
  }

  /** The short-term list after adding each interaction of `added` in turn: the earlier history
      followed by the additions in the order they were made. */
  function Appended<I>(history: seq<I>, added: seq<I>): (r: seq<I>)
    ensures r == history + added
    decreases |added|
  {
    if added == [] then history
    else
      assert history + added == (history + [added[0]]) + added[1..];
      Appended(history + [added[0]], added[1..])
  }

  class MemoryModule<I, D> {
    var shortTerm: seq<I>
    var longTerm: map<string, D>

    constructor ()
      ensures shortTerm == [] && longTerm == map[]
    {
      shortTerm := [];
      longTerm := map[];
    }

    /** Appends an interaction to the short-term list. */
    method AddToShortTerm(interaction: I)
      modifies this
      ensures shortTerm == old(shortTerm) + [interaction]
      ensures longTerm == old(longTerm)
    {
      shortTerm := shortTerm + [interaction];
    }

    /** The recent interactions, oldest first. */
    method GetShortTermContext() returns (context: seq<I>)
      ensures context == shortTerm
    {
      context := shortTerm;
    }

    /** Stores data under a key, replacing what was there. */
    method StoreInLongTerm(key: string, data: D)
      modifies this
      ensures longTerm == old(longTerm)[key := data]
      ensures shortTerm == old(shortTerm)
    {
      longTerm := longTerm[key := data];
    }

    /** The data stored under a key, or None. */
    method RetrieveFromLongTerm(key: string) returns (data: Option<D>)
      ensures data == Retrieve(longTerm, key)
    {
      if key in longTerm {
        data := Some(longTerm[key]);
      } else {
        data := None;
      }
    }
  }
}
