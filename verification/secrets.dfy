/** Who a `Core.Secret` has been revealed to (Core.py). Users are identified by name. */
module Secrets {

  predicate NoDuplicates(users: seq<string>) {
    forall i, j | 0 <= i < j < |users| :: users[i] != users[j]
  }

  /** `is_known_by`. */
  predicate IsKnownBy(revealedTo: seq<string>, user: string) {
    user in revealedTo
  }

  /** `reveal`: add the user at the end unless they already know the secret. */
  function Reveal(revealedTo: seq<string>, user: string): (r: seq<string>)
    ensures IsKnownBy(r, user)
    ensures forall u :: IsKnownBy(r, u) <==> IsKnownBy(revealedTo, u) || u == user
    ensures NoDuplicates(revealedTo) ==> NoDuplicates(r)
    ensures |revealedTo| <= |r| <= |revealedTo| + 1
    ensures r[..|revealedTo|] == revealedTo
  {
    if user in revealedTo then revealedTo else revealedTo + [user]
  }

  /** Revealing twice is revealing once. */
  lemma RevealIdempotent(revealedTo: seq<string>, user: string)
    ensures Reveal(Reveal(revealedTo, user), user) == Reveal(revealedTo, user)
  {
  }

  /** Revealing to several users in turn. */
  function RevealAll(revealedTo: seq<string>, users: seq<string>): seq<string>
    decreases |users|
  {
    if |users| == 0 then revealedTo else RevealAll(Reveal(revealedTo, users[0]), users[1..])
  }

  /** However many reveals happen, starting from a duplicate-free list, nobody is listed twice and exactly the revealed users are added. */
  lemma {:induction false} RevealAllProperties(revealedTo: seq<string>, users: seq<string>)
    requires NoDuplicates(revealedTo)
    ensures NoDuplicates(RevealAll(revealedTo, users))
    ensures forall u :: IsKnownBy(RevealAll(revealedTo, users), u) <==> u in revealedTo || u in users
    decreases |users|
  {
    if |users| > 0 {
      RevealAllProperties(Reveal(revealedTo, users[0]), users[1..]);
      assert forall u :: u in users <==> u == users[0] || u in users[1..];
    }
  }
}
