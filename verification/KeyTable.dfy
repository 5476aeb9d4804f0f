/** The idempotency_keys table and the digest that names its rows. */
module KeyTable {
  import opened Wrappers

  /** A user id in its 36-character text form. */
  type UserId = s: string | |s| == 36 witness "00000000-0000-0000-0000-000000000000"

  type Digest = string

  /** A stored response; `B` is how its body is represented. */
  datatype Row<B> = Row(user: UserId, code: nat, body: B)

  type Keys<B> = map<Digest, Row<B>>

  /** What is hashed: key, user and body, one after the other. The hash itself is taken as injective. */
  function CompoundHash(key: string, user: UserId, body: string): Digest {
    key + user + body
  }

  /** GetIdempotencyKey: by id and user. */
  function Find<B>(keys: Keys<B>, id: Digest, user: UserId): Option<Row<B>> {
    if id in keys && keys[id].user == user then Some(keys[id]) else None
  }

  /** CreateIdempotencyKey: the id alone is the primary key, so a second insert is refused. */
  function Insert<B>(keys: Keys<B>, id: Digest, row: Row<B>): Keys<B> {
    if id in keys then keys else keys[id := row]
  }

  /** For keys of one length the digest separates requests completely. */
  lemma DigestSeparates(k1: string, u1: UserId, b1: string, k2: string, u2: UserId, b2: string)
    requires |k1| == |k2|
    ensures CompoundHash(k1, u1, b1) == CompoundHash(k2, u2, b2) <==> k1 == k2 && u1 == u2 && b1 == b2
  {
    var h1, h2 := CompoundHash(k1, u1, b1), CompoundHash(k2, u2, b2);
    var n := |k1|;
    assert h1[..n] == k1 && h1[n..n + 36] == u1 && h1[n + 36..] == b1;
    assert h2[..n] == k2 && h2[n..n + 36] == u2 && h2[n + 36..] == b2;
  }

  /** Keys of these lengths, with any user and body, never give one digest to two requests. */
  ghost predicate Separates(m: nat, n: nat) {
    forall k1: string, u1: UserId, b1: string, k2: string, u2: UserId, b2: string
      | |k1| == m && |k2| == n && CompoundHash(k1, u1, b1) == CompoundHash(k2, u2, b2)
      :: k1 == k2 && u1 == u2 && b1 == b2
  }

  /** Keys of different lengths always can: what is key to one request is user or body to another. */
  lemma LongerKeyCollides(m: nat, n: nat) returns (k1: string, u: UserId, b1: string, k2: string)
    requires m < n
    ensures |k1| == m && |k2| == n && CompoundHash(k1, u, b1) == CompoundHash(k2, u, "")
  {
    var zeros := seq(n + 36, i => '0');
    k1, u, b1, k2 := zeros[..m], zeros[..36], zeros[m + 36..], zeros[..n];
    assert zeros == k1 + zeros[m..m + 36] + b1 == k2 + zeros[n..n + 36] + "";
    assert zeros[m..m + 36] == u == zeros[n..n + 36];
  }

  /** The digest separates requests exactly when their keys have one length. */
  lemma DigestSeparatesExactly(m: nat, n: nat)
    ensures Separates(m, n) <==> m == n
  {
    if m == n {
      forall k1: string, u1: UserId, b1: string, k2: string, u2: UserId, b2: string
        | |k1| == m && |k2| == n && CompoundHash(k1, u1, b1) == CompoundHash(k2, u2, b2)
        ensures k1 == k2 && u1 == u2 && b1 == b2
      {
        DigestSeparates(k1, u1, b1, k2, u2, b2);
      }
    } else if m < n {
      var k1, u, b1, k2 := LongerKeyCollides(m, n);
      assert k1 != k2;
    } else {
      var k2, u, b2, k1 := LongerKeyCollides(n, m);
      assert k1 != k2;
      assert CompoundHash(k1, u, "") == CompoundHash(k2, u, b2);
    }
  }
}
