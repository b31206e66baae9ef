/** Rows that are numbered per owner with `max(number) + 1`: attempts of a job, events of a job. */
module Numbering {

  /** One row of a numbered table: who owns it and the number it carries. */
  datatype Key = Key(owner: nat, number: nat)

  function Count(keys: seq<Key>, owner: nat): nat {
    if keys == [] then 0
    else Count(keys[..|keys| - 1], owner) + if keys[|keys| - 1].owner == owner then 1 else 0
  }

  /** `SELECT COALESCE(max(number), 0) ... WHERE owner = %s`. */
  function MaxNumber(keys: seq<Key>, owner: nat): nat {
    if keys == [] then 0
    else
      var rest := MaxNumber(keys[..|keys| - 1], owner);
      var last := keys[|keys| - 1];
      if last.owner == owner && last.number > rest then last.number else rest
  }

  /** Every row carries one more than the number of its owner's earlier rows. */
  ghost predicate Numbered(keys: seq<Key>) {
    keys == [] ||
    var rest, last := keys[..|keys| - 1], keys[|keys| - 1];
    Numbered(rest) && last.number == 1 + Count(rest, last.owner)
  }

  lemma {:induction false} MaxIsCount(keys: seq<Key>, owner: nat)
    requires Numbered(keys)
    ensures MaxNumber(keys, owner) == Count(keys, owner)
  {
    if keys != [] { MaxIsCount(keys[..|keys| - 1], owner); }
  }

  /** The number both services choose is the right next one. */
  lemma AppendNext(keys: seq<Key>, owner: nat)
    requires Numbered(keys)
    ensures Numbered(keys + [Key(owner, MaxNumber(keys, owner) + 1)])
  {
    var longer := keys + [Key(owner, MaxNumber(keys, owner) + 1)];
    MaxIsCount(keys, owner);
    assert longer[..|longer| - 1] == keys;
  }

  lemma InSnoc<T>(s: seq<T>, x: T)
    requires s != []
    ensures x in s <==> x in s[..|s| - 1] || x == s[|s| - 1]
  {
  }

  /** The numbers an owner uses are exactly 1..Count. */
  lemma {:induction false} ExactlyOneToN(keys: seq<Key>, owner: nat, number: nat)
    requires Numbered(keys)
    ensures Key(owner, number) in keys <==> 1 <= number <= Count(keys, owner)
  {
    if keys != [] {
      ExactlyOneToN(keys[..|keys| - 1], owner, number);
      InSnoc(keys, Key(owner, number));
    }
  }

  /** Later rows of an owner carry larger numbers, so no number is used twice. */
  lemma {:induction false} Increasing(keys: seq<Key>, i: nat, k: nat)
    requires Numbered(keys) && i < k < |keys| && keys[i].owner == keys[k].owner
    ensures keys[i].number < keys[k].number
  {
    var rest := keys[..|keys| - 1];
    if k < |keys| - 1 {
      Increasing(rest, i, k);
    } else {
      assert rest[i] == keys[i] && rest[i] in rest;
      ExactlyOneToN(rest, rest[i].owner, rest[i].number);
    }
  }
}
