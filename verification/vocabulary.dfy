/** The small vocabulary the other modules share. */
module Vocabulary {

  datatype Option<+T> = None | Some(value: T)

  datatype Result<+T, +E> = Ok(value: T) | Err(error: E)

  /** The sender's standing in the channel, ordered by `Rank`. */
  datatype Authority = Member | Moderator | Admin

  function Rank(authority: Authority): nat {
    match authority
    case Member => 0
    case Moderator => 1
    case Admin => 2
  }

  /** The lower of two standings. */
  function Lower(a: Authority, b: Authority): (lower: Authority)
    ensures Rank(lower) <= Rank(a) && Rank(lower) <= Rank(b)
    ensures lower == a || lower == b
  {
    if Rank(a) <= Rank(b) then a else b
  }

  /** Every finite set can be read in some order. */
  lemma InSomeOrder<T(!new)>(members: set<T>) returns (list: seq<T>)
    ensures forall c :: c in list <==> c in members
  {
    list := [];
    if members != {} {
      var c :| c in members;
      var rest := InSomeOrder(members - {c});
      list := [c] + rest;
    }
  }
}
