/**
 * The fixed directory of pre-authorised voters (`validCredentials`) and the
 * key under which a consumed credential is recorded in
 * `store.usedCredentials`.
 */
module Credentials {
  import opened Wrappers
  import opened Text
  import opened Seqs

  /** A voter: national identification number and date of birth (`YYYY-MM-DD`). */
  datatype Credential = Credential(username: string, passcode: string)

  /** `validCredentials`, in declaration order. */
  const ValidCredentials: seq<Credential> := [
    Credential("1234567890", "1990-01-01"),
    Credential("2345678901", "1991-02-02"),
    Credential("3456789012", "1992-03-03"),
    Credential("4567890123", "1993-04-04"),
    Credential("5678901234", "1994-05-05"),
    Credential("6789012345", "1995-06-06"),
    Credential("7890123456", "1996-07-07"),
    Credential("8901234567", "1997-08-08"),
    Credential("9012345678", "1998-09-09"),
    Credential("0123456789", "1999-10-10")
  ]

  /**
   * `creds.find(c => c.username === username && c.passcode === passcode)`:
   * the first entry matching both fields exactly, if there is one.
   */
  function Find(creds: seq<Credential>, username: string, passcode: string): (r: Option<Credential>)
    ensures r.Some? <==> Credential(username, passcode) in creds
    ensures r.Some? ==> r.value == Credential(username, passcode)
  {
    if creds == [] then None
    else if creds[0].username == username && creds[0].passcode == passcode then Some(creds[0])
    else Find(creds[1..], username, passcode)
  }

  /** `${username}:${passcode}`, the unit of "used" tracking. */
  function Key(username: string, passcode: string): string
  {
    username + ":" + passcode
  }

  /** The keys of every entry of a directory. */
  function Keys(directory: seq<Credential>): (keys: seq<string>)
    ensures |keys| == |directory|
  {
    seq(|directory|, i requires 0 <= i < |directory| =>
      Key(directory[i].username, directory[i].passcode))
  }

  /**
   * Position `i` of the keys is `username:passcode` of entry `i`. Stated
   * apart from `Keys`, so that proofs about the ledger that do not need it
   * do not carry it.
   */
  lemma KeysAt(directory: seq<Credential>, i: nat)
    requires i < |directory|
    ensures Keys(directory)[i] == Key(directory[i].username, directory[i].passcode)
  {
  }

  /** A directory entry's key is one of the directory's keys. */
  lemma KeyOfEntry(directory: seq<Credential>, c: Credential)
    requires c in directory
    ensures Key(c.username, c.passcode) in Keys(directory)
  {
    var i :| 0 <= i < |directory| && directory[i] == c;
    KeysAt(directory, i);
  }

  /**
   * A key names one credential when the identification number is made of
   * digits, as every number that passes the input filter is: the first `:`
   * of the key ends the number.
   */
  lemma KeyInjective(u1: string, p1: string, u2: string, p2: string)
    requires AllDigits(u1) && AllDigits(u2)
    requires Key(u1, p1) == Key(u2, p2)
    ensures u1 == u2 && p1 == p2
  {
    var k := Key(u1, p1);
    assert |u1| == |u2| by {
      assert k[|u1|] == ':' && k[|u2|] == ':';
    }
    assert u1 == k[..|u1|] == u2;
    assert p1 == k[|u1| + 1..] == p2;
  }
}
