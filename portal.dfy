/**
 * The voting kiosk: the `EVotingPortal` component's state (the persisted
 * `store` and the session fields beside it) and its event handlers, each
 * one atomic step.
 */
module Portal {
  import opened Wrappers
  import opened Text
  import opened Seqs
  import opened Tally
  import opened Credentials

  /** `DEFAULT_PARTIES`, the configuration used when none is passed in. */
  const DefaultParties: seq<Party> := [
    Party("candidate1", "ADC", "/ADC logo.jpeg"),
    Party("candidate2", "APC", "/APC.jpg"),
    Party("candidate3", "LP", "/LP%20logo.jpg"),
    Party("candidate4", "NNPP", "/nnpp.jpg"),
    Party("candidate5", "PDP", "/PDP.png")
  ]

  /** The default configuration meets the constructor's precondition: its five ids are distinct. */
  lemma DefaultPartiesConfigured()
    ensures Configured(DefaultParties)
  {
    var ids := Ids(ZeroVotes(DefaultParties));
    assert ids == ["candidate1", "candidate2", "candidate3", "candidate4", "candidate5"];
  }

  /** Longest identification number the input field accepts. */
  const NinLength := 10

  /**
   * What the date-of-birth text yields once it has been parsed as a date,
   * the voter's age has been compared with today's date, and the date has
   * been rendered back as `YYYY-MM-DD`.
   */
  datatype DobCheck = Unparsable | Underage | Adult(passcode: string)

  /** The branch `getCredentials` takes (each failure is an alert in the source). */
  datatype AuthOutcome = MissingInput | InvalidDate | TooYoung | InvalidCredential | AlreadyUsed | Accepted

  /** The branch `castVote` and `castVoid` take (every failure is a silent return). */
  datatype BallotOutcome = VotingClosed | SessionLocked | UnknownParty | Recorded

  /**
   * The identification-number field's `onChange`: strip every non-digit;
   * take the result only when it is at most ten characters long, and
   * otherwise keep the previous value.
   */
  function NinFilter(current: string, input: string): (r: string)
    ensures AllDigits(current) && |current| <= NinLength ==> AllDigits(r) && |r| <= NinLength
    ensures |StripNonDigits(input)| <= NinLength ==> r == StripNonDigits(input)
    ensures |StripNonDigits(input)| > NinLength ==> r == current
  {
    var value := StripNonDigits(input);
    if |value| <= NinLength then value else current
  }

  /**
   * The decision `getCredentials` makes, in its order: both fields must be
   * non-blank, the date must parse and the voter be of age, the pair must
   * be in the directory, and its key must not have been used.
   */
  function Admission(directory: seq<Credential>, nin: string, dobText: string, dob: DobCheck, used: seq<string>): (r: AuthOutcome)
    ensures r == MissingInput <==> Trim(nin) == [] || Trim(dobText) == []
    ensures r == InvalidDate <==> Trim(nin) != [] && Trim(dobText) != [] && dob.Unparsable?
    ensures r == TooYoung <==> Trim(nin) != [] && Trim(dobText) != [] && dob.Underage?
    ensures r == Accepted <==>
      && Trim(nin) != [] && Trim(dobText) != [] && dob.Adult?
      && Credential(Trim(nin), dob.passcode) in directory
      && Key(Trim(nin), dob.passcode) !in used
    ensures r == InvalidCredential ==> dob.Adult? && Credential(Trim(nin), dob.passcode) !in directory
    ensures r == AlreadyUsed ==>
      && dob.Adult? && Credential(Trim(nin), dob.passcode) in directory
      && Key(Trim(nin), dob.passcode) in used
  {
    var username := Trim(nin);
    if username == [] || Trim(dobText) == [] then MissingInput
    else match dob
      case Unparsable => InvalidDate
      case Underage => TooYoung
      case Adult(passcode) =>
        if Find(directory, username, passcode).None? then InvalidCredential
        else if Key(username, passcode) in used then AlreadyUsed
        else Accepted
  }

  /** `usedCredentials` as the kiosk keeps it: no key twice, and only keys of directory entries. */
  ghost predicate Ledger(used: seq<string>, directory: seq<Credential>) {
    Distinct(used) && forall k | k in used :: k in Keys(directory)
  }

  /**
   * Appending the key of a directory entry that is not yet in the list
   * keeps the list a ledger, one entry longer, and keeps every key already
   * there.
   */
  lemma RecordKey(used: seq<string>, directory: seq<Credential>, c: Credential)
    requires Ledger(used, directory)
    requires c in directory && Key(c.username, c.passcode) !in used
    ensures var used' := used + [Key(c.username, c.passcode)];
      Ledger(used', directory) && |used'| == |used| + 1 && forall k | k in used :: k in used'
  {
    KeyOfEntry(directory, c);
  }

  /**
   * Every counted ballot used up a credential of its own: with the used keys
   * distinct and all from the directory, an election holds at most as many
   * ballots as the directory has voters.
   */
  lemma BallotBound(s: Store, directory: seq<Credential>)
    requires Ledger(s.usedCredentials, directory)
    requires Total(s) <= |s.usedCredentials|
    ensures Total(s) <= |directory|
  {
    DistinctWithinBound(s.usedCredentials, Keys(directory));
  }

  class EVotingPortal {
    const parties: seq<Party>
    /** `validCredentials`: the component mounts with `ValidCredentials`. */
    const directory: seq<Credential>
    var store: Store
    var currentCredential: Option<Credential>
    var enteredNIN: string
    var enteredDOB: string
    var unlocked: bool
    var showResults: bool

    /**
     * The kiosk's invariant: one counter per configured party; no key used
     * twice and every used key from the directory; every counted ballot,
     * and the one an open session may still cast, paid for by a used
     * credential; an unlocked session always has a credential, whose key is
     * used; and the identification-number field holds at most ten digits.
     */
    ghost predicate Valid()
      reads this
    {
      && Configured(parties)
      && Conforms(store, parties)
      && Ledger(store.usedCredentials, directory)
      && Total(store) + (if unlocked then 1 else 0) <= |store.usedCredentials|
      && (unlocked ==> currentCredential.Some?)
      && (currentCredential.Some? ==>
            var c := currentCredential.value;
            c in directory && Key(c.username, c.passcode) in store.usedCredentials)
      && AllDigits(enteredNIN) && |enteredNIN| <= NinLength
    }

    /**
     * Mounting the component with no saved tally: a fresh election and an
     * empty, locked session. The source mounts with `ValidCredentials` as
     * the directory; the proofs hold for any directory.
     */
    constructor (parties: seq<Party>, directory: seq<Credential>)
      requires Configured(parties)
      ensures Valid()
      ensures this.parties == parties && this.directory == directory
      ensures store == InitialStore(parties)
      ensures currentCredential == None && enteredNIN == "" && enteredDOB == ""
      ensures !unlocked && !showResults
    {
      this.parties := parties;
      this.directory := directory;
      store := InitialStore(parties);
      currentCredential := None;
      enteredNIN := "";
      enteredDOB := "";
      unlocked := false;
      showResults := false;
    }

    /** The identification-number field's `onChange`. */
    method ChangeNIN(value: string)
      requires Valid()
      modifies this
      ensures Valid()
      ensures enteredNIN == NinFilter(old(enteredNIN), value)
      ensures store == old(store) && currentCredential == old(currentCredential)
      ensures enteredDOB == old(enteredDOB) && unlocked == old(unlocked) && showResults == old(showResults)
    {
      enteredNIN := NinFilter(enteredNIN, value);
    }

    /** The date-of-birth field's `onChange`. */
    method ChangeDOB(value: string)
      requires Valid()
      modifies this
      ensures Valid()
      ensures enteredDOB == value
      ensures store == old(store) && currentCredential == old(currentCredential)
      ensures enteredNIN == old(enteredNIN) && unlocked == old(unlocked) && showResults == old(showResults)
    {
      enteredDOB := value;
    }

    /**
     * `getCredentials`. A fresh directory credential has its key appended
     * to the used list once and unlocks the session, whether or not voting
     * has ended and whether or not a session was already open. A pair not
     * in the directory locks the session and changes nothing else. Every
     * other failure changes nothing at all.
     */
    method GetCredentials(dob: DobCheck) returns (outcome: AuthOutcome)
      requires Valid()
      modifies this
      ensures Valid()
      ensures outcome == Admission(directory, old(enteredNIN), old(enteredDOB), dob, old(store.usedCredentials))
      ensures outcome == Accepted ==>
        && store == old(store).(usedCredentials := old(store.usedCredentials) + [Key(old(enteredNIN), dob.passcode)])
        && currentCredential == Some(Credential(old(enteredNIN), dob.passcode))
        && unlocked && showResults
        && enteredNIN == old(enteredNIN) && enteredDOB == old(enteredDOB)
      ensures outcome == InvalidCredential ==>
        && store == old(store) && !unlocked
        && currentCredential == old(currentCredential) && showResults == old(showResults)
        && enteredNIN == old(enteredNIN) && enteredDOB == old(enteredDOB)
      ensures outcome != Accepted && outcome != InvalidCredential ==> unchanged(this)
    {
      TrimAllDigits(enteredNIN);
      ghost var decision := Admission(directory, enteredNIN, enteredDOB, dob, store.usedCredentials);
      var username := enteredNIN;
      if username == [] || Trim(enteredDOB) == [] {
        return MissingInput;
      }
      if dob.Unparsable? {
        return InvalidDate;
      }
      if dob.Underage? {
        return TooYoung;
      }
      var passcode := dob.passcode;
      var credential := Find(directory, username, passcode);
      if credential.None? {
        unlocked := false;
        return InvalidCredential;
      }
      var credKey := Key(username, passcode);
      if credKey in store.usedCredentials {
        return AlreadyUsed;
      }
      Unlock(credential.value);
      outcome := Accepted;
    }

    /**
     * The success branch of `getCredentials`: the credential's key is
     * appended to the used list, the credential becomes the session's, and
     * the session unlocks.
     */
    method Unlock(credential: Credential)
      requires Valid()
      requires credential in directory
      requires Key(credential.username, credential.passcode) !in store.usedCredentials
      modifies this
      ensures Valid()
      ensures store == old(store).(usedCredentials := old(store.usedCredentials) + [Key(credential.username, credential.passcode)])
      ensures currentCredential == Some(credential) && unlocked && showResults
      ensures enteredNIN == old(enteredNIN) && enteredDOB == old(enteredDOB)
    {
      RecordKey(store.usedCredentials, directory, credential);
      store := store.(usedCredentials := store.usedCredentials + [Key(credential.username, credential.passcode)]);
      currentCredential := Some(credential);
      unlocked := true;
      showResults := true;
    }

    /**
     * `castVote(partyId)`. While voting is open, a session is unlocked and
     * the id is a key of the tally, exactly one party's counter goes up by
     * one, everything else in the store is kept, and the session is locked
     * and cleared; otherwise nothing changes.
     */
    method CastVote(partyId: string) returns (outcome: BallotOutcome)
      requires Valid()
      modifies this
      ensures Valid()
      ensures outcome ==
        if old(store.ended) then VotingClosed
        else if !old(unlocked) then SessionLocked
        else if !HasKey(old(store.votes), partyId) then UnknownParty
        else Recorded
      ensures outcome != Recorded ==> unchanged(this)
      ensures outcome == Recorded ==>
        && store == old(store).(votes := Increment(old(store.votes), partyId))
        && HasKey(store.votes, partyId)
        && Get(store.votes, partyId) == old(Get(store.votes, partyId)) + 1
        && (forall q | q != partyId && HasKey(old(store.votes), q) ::
              HasKey(store.votes, q) && Get(store.votes, q) == old(Get(store.votes, q)))
        && !unlocked && currentCredential == None
        && enteredNIN == "" && enteredDOB == "" && showResults
      ensures Total(store) == old(Total(store)) + (if outcome == Recorded then 1 else 0)
    {
      if store.ended {
        return VotingClosed;
      }
      if !unlocked {
        return SessionLocked;
      }
      if !HasKey(store.votes, partyId) {
        return UnknownParty;
      }
      CloseSession(store.(votes := Increment(store.votes, partyId)));
      outcome := Recorded;
    }

    /**
     * What `castVote` and `castVoid` do once a ballot is accepted: the store
     * becomes `counted`, which holds one more ballot and the same used
     * credentials, and the session is locked, cleared and shows the results.
     * The ballot the open session was allowed is the one counted, so the
     * invariant is kept.
     */
    method CloseSession(counted: Store)
      requires Valid() && unlocked
      requires Conforms(counted, parties)
      requires counted.usedCredentials == store.usedCredentials
      requires Total(counted) == Total(store) + 1
      modifies this
      ensures Valid()
      ensures store == counted
      ensures !unlocked && currentCredential == None
      ensures enteredNIN == "" && enteredDOB == "" && showResults
    {
      store := counted;
      unlocked := false;
      currentCredential := None;
      enteredNIN := "";
      enteredDOB := "";
      showResults := true;
    }

    /**
     * `castVoid`. While voting is open and a session is unlocked, the void
     * count goes up by one, the party counters and the used credentials are
     * kept, and the session is locked and cleared; otherwise nothing changes.
     */
    method CastVoid() returns (outcome: BallotOutcome)
      requires Valid()
      modifies this
      ensures Valid()
      ensures outcome ==
        if old(store.ended) then VotingClosed
        else if !old(unlocked) then SessionLocked
        else Recorded
      ensures outcome != Recorded ==> unchanged(this)
      ensures outcome == Recorded ==>
        && store == old(store).(voidVotes := old(store.voidVotes) + 1)
        && !unlocked && currentCredential == None
        && enteredNIN == "" && enteredDOB == "" && showResults
      ensures Total(store) == old(Total(store)) + (if outcome == Recorded then 1 else 0)
    {
      if store.ended || !unlocked {
        return if store.ended then VotingClosed else SessionLocked;
      }
      CloseSession(store.(voidVotes := store.voidVotes + 1));
      outcome := Recorded;
    }

    /** `endVoting`: closes the ballot and shows the results; calling it twice is the same as once. */
    method EndVoting()
      requires Valid()
      modifies this
      ensures Valid()
      ensures store == old(store).(ended := true) && showResults
      ensures currentCredential == old(currentCredential) && unlocked == old(unlocked)
      ensures enteredNIN == old(enteredNIN) && enteredDOB == old(enteredDOB)
    {
      store := store.(ended := true);
      showResults := true;
    }

    /** `reopenVoting`: opens the ballot again and keeps every used credential used. */
    method ReopenVoting()
      requires Valid()
      modifies this
      ensures Valid()
      ensures store == old(store).(ended := false)
      ensures currentCredential == old(currentCredential) && unlocked == old(unlocked)
      ensures enteredNIN == old(enteredNIN) && enteredDOB == old(enteredDOB)
      ensures showResults == old(showResults)
    {
      store := store.(ended := false);
    }

    /**
     * `resetElection`, with the operator's answer to the confirmation
     * dialog as `confirmed`: when confirmed, the store is the one a fresh
     * election starts from and the session is cleared and locked; when not,
     * nothing changes.
     */
    method ResetElection(confirmed: bool)
      requires Valid()
      modifies this
      ensures Valid()
      ensures !confirmed ==> unchanged(this)
      ensures confirmed ==>
        && store == InitialStore(parties)
        && currentCredential == None && enteredNIN == "" && enteredDOB == ""
        && !unlocked && !showResults
    {
      if !confirmed {
        return;
      }
      store := InitialStore(parties);
      currentCredential := None;
      enteredNIN := "";
      enteredDOB := "";
      unlocked := false;
      showResults := false;
    }

    /**
     * The text `exportCSV` downloads: it reads back as the tally's rows
     * when no party name holds a comma or a newline.
     */
    method ExportCSV() returns (csv: string)
      requires Valid()
      ensures csv == CsvText(parties, store)
      ensures PlainNames(parties) ==> ParseCsv(csv) == CsvRows(parties, store)
    {
      csv := CsvText(parties, store);
      if PlainNames(parties) {
        CsvRoundTrip(parties, store);
      }
    }

    /** However the kiosk got here, it has counted no more ballots than the directory has voters. */
    lemma BallotsBounded()
      requires Valid()
      ensures Total(store) <= |directory|
    {
      BallotBound(store, directory);
    }

    /** With the directory the component mounts with, no election counts more than ten ballots. */
    lemma ShippedBallotsBounded()
      requires Valid() && directory == ValidCredentials
      ensures Total(store) <= 10
    {
      BallotsBounded();
    }
  }
}
