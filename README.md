# E-voting kiosk, modelled in Dafny

The e-voting portal is a single-page kiosk. A voter types a national
identification number (NIN) and a date of birth. If the pair is one of the
pre-authorised credentials, is not used yet, and the voter is at least
eighteen, the session unlocks and the voter casts exactly one ballot: a vote
for one configured party, or a void ballot. Every credential can be used
only once. An operator can end and reopen voting, reset the whole election
after confirming, and export the tally as a CSV file. The results panel
shows a bar per party, a "Void" bar and the grand total.

The model has these parts:

- `Text`: the NIN field's digit filter, JavaScript's `trim`, the decimal
  rendering of a count, and `join` together with the split that reads it back.
- `Tally`: the persisted `store` (one counter per party in configured order, void
  ballots, the ended flag, used credential keys). It also holds the fresh
  store, the total, the chart series and the CSV rows and text.
- `Credentials`: the directory of valid credentials, the lookup and the
  `username:passcode` key.
- `Portal`: the admission decision, the ledger of used keys, and the class
  `EVotingPortal`. The class holds the component's state and one method per
  event handler. Each method is one atomic step, and its invariant `Valid()`
  is kept by every step.

The central property is `Portal.EVotingPortal.BallotsBounded`. However the
handlers are called, the kiosk never counts more ballots than the directory
has voters. The class invariant makes this work: every counted ballot, plus
the one an open session may still cast, is paid for by a distinct used key
from the directory.

Two behaviours of `getCredentials` are kept as the code has them:
- `getCredentials` does not refuse a voter while another session is
  unlocked. The new credential replaces the current one, and the earlier key
  stays used.
- `getCredentials` does not check whether voting has ended. A voter can be
  admitted, but `castVote`/`castVoid` then refuse the ballot until voting is
  reopened.

## Model

| member | source | states |
|---|---|---|
| Text.StripNonDigits | e-voting-portal/src/App.jsx:240 | `value.replace(/\D/g, '')` yields only ASCII digits, is never longer than its input, and leaves a digit string as it is |
| Text.StripNonDigitsKeepsDigits | e-voting-portal/src/App.jsx:240 | every digit of the input survives the filter, as many times as it occurs |
| Text.StripNonDigitsAppend | e-voting-portal/src/App.jsx:240 | the filter works character by character: filtering a concatenation concatenates the filtered parts, so digits keep their order |
| Text.Trim | e-voting-portal/src/App.jsx:92-93 | `trim()` neither starts nor ends with white space; it is empty exactly when the text is all white space, and text with non-space ends is returned unchanged |
| Text.TrimCutsWhiteSpace | e-voting-portal/src/App.jsx:92-93 | `trim()` is the infix of the text left after cutting off a leading and a trailing run of white space (the longest runs, given `Trim`'s non-space ends) |
| Text.TrimAllDigits | e-voting-portal/src/App.jsx:92 | trimming a digit-only NIN gives it back unchanged |
| Text.DecimalString | e-voting-portal/src/App.jsx:194-196 | a count is rendered as a non-empty digit string without leading zeros |
| Text.DecimalRoundTrip | e-voting-portal/src/App.jsx:194-196 | the rendered count reads back as the count |
| Text.IndexOf | e-voting-portal/src/App.jsx:198 | the first position of the separator (used to read the joined text back) |
| Text.SplitJoin | e-voting-portal/src/App.jsx:198 | splitting `cells.join(sep)` on `sep` gives back the cells, when there is at least one cell and none holds the separator |
| Text.NotInJoin | e-voting-portal/src/App.jsx:198 | a character absent from every cell, and not the separator, is absent from the joined text |
| Seqs.DistinctWithinBound | e-voting-portal/src/App.jsx:124-128 | a list of used keys with no repeats, all drawn from a directory, is no longer than the directory |
| Tally.Increment | e-voting-portal/src/App.jsx:141-144 | `{ ...votes, [id]: votes[id] + 1 }` keeps the keys and their order, raises the chosen counter by one, keeps every other counter, and raises the sum by one |
| Tally.ZeroVotes | e-voting-portal/src/App.jsx:41 | `Object.fromEntries(parties.map(p => [p.id, 0]))` is one counter `(p.id, 0)` per party, in configured order, with sum zero |
| Tally.InitialStore | e-voting-portal/src/App.jsx:40-45 | a fresh store has one counter per party, all zero, no void ballots, voting open, no key used and a total of zero |
| Tally.GetAt | e-voting-portal/src/App.jsx:72 | with distinct ids, `votes[id]` reads the counter stored for that id |
| Tally.PartyHasKey | e-voting-portal/src/App.jsx:140 | every configured party's id is a key of a conforming store's `votes` |
| Tally.ChartDataShape | e-voting-portal/src/App.jsx:66-74 | the chart has one bar per party in configured order with its name and count, then one "Void" bar, and the bars add up to `totalVotes` |
| Tally.BarSumMatchesSum | e-voting-portal/src/App.jsx:67 | bars that carry the counters add up to the sum of the counters |
| Tally.CsvRowsShape | e-voting-portal/src/App.jsx:191-197 | the export is exactly a `Candidate,Votes` header, one `name,count` row per party in configured order, then `Void,count` and `Total,count`; each count is the number's decimal numeral without leading zeros, and it reads back as its counter, `voidVotes` and `totalVotes` |
| Tally.CsvCellsPlain | e-voting-portal/src/App.jsx:192-198 | no cell of an exported row holds a comma or a newline when no party name does |
| Tally.CsvRoundTrip | e-voting-portal/src/App.jsx:192-198 | splitting the exported text on newlines and then on commas gives back exactly the rows, when no party name holds a separator |
| Credentials.Find | e-voting-portal/src/App.jsx:119 | `validCredentials.find(...)` finds an entry exactly when the (username, passcode) pair is in the directory, and returns that pair |
| Credentials.Keys | e-voting-portal/src/App.jsx:123 | the directory has one key per entry |
| Credentials.KeysAt | e-voting-portal/src/App.jsx:123 | the key at position i is `${username}:${passcode}` of directory entry i, so the keys follow the directory's order |
| Credentials.KeyOfEntry | e-voting-portal/src/App.jsx:119-123 | the key of any directory entry is one of the directory's keys |
| Credentials.KeyInjective | e-voting-portal/src/App.jsx:123-124 | for digit-only usernames, `${username}:${passcode}` determines both the username and the passcode |
| Portal.DefaultPartiesConfigured | e-voting-portal/src/App.jsx:16-22 | the five default parties have distinct ids, so mounting with no `parties` prop meets the constructor's precondition |
| Portal.NinFilter | e-voting-portal/src/App.jsx:236-245 | the NIN field takes the digits of the input when there are at most ten of them, and otherwise keeps its value; it therefore always holds at most ten digits |
| Portal.Admission | e-voting-portal/src/App.jsx:91-127 | the admission decision, branch by branch: a blank NIN or date gives a missing-input refusal; an unparsable date gives an invalid-date refusal; a minor is refused; acceptance happens exactly when the pair is in the directory and its key is unused |
| Portal.RecordKey | e-voting-portal/src/App.jsx:124-128 | appending the key of an unused directory entry keeps the used list repeat-free and within the directory, one longer |
| Portal.BallotBound | e-voting-portal/src/App.jsx:124-128 | a store whose ballots are covered by a ledger of used keys counts no more ballots than the directory has voters |
| Portal.EVotingPortal.constructor | e-voting-portal/src/App.jsx:36-60 | mounting starts from the fresh store with an empty, locked session and establishes the invariant |
| Portal.EVotingPortal.ChangeNIN | e-voting-portal/src/App.jsx:236-245 | the NIN field becomes the filtered value and nothing else changes |
| Portal.EVotingPortal.ChangeDOB | e-voting-portal/src/App.jsx:255-258 | the date-of-birth field takes the input and nothing else changes |
| Portal.EVotingPortal.GetCredentials | e-voting-portal/src/App.jsx:91-136 | the outcome is the admission decision; on acceptance the key is appended once and the session unlocks with the credential and shows results; an unknown pair only locks the session; every other refusal changes nothing; the invariant is kept |
| Portal.EVotingPortal.Unlock | e-voting-portal/src/App.jsx:128-131 | the success branch: the key is appended, the credential becomes the session's, the session unlocks and results show |
| Portal.EVotingPortal.CastVote | e-voting-portal/src/App.jsx:138-151 | refused with nothing changed when voting ended, the session is locked or the id is not a counter; otherwise exactly that party's counter goes up by one, the total goes up by one and the session is cleared and locked |
| Portal.EVotingPortal.CloseSession | e-voting-portal/src/App.jsx:145-149 | after an accepted ballot (the same block as lines 159-163): the store takes the one-ballot-larger tally, and the session is locked, cleared and shows results; the invariant is kept because the counted ballot is the one the open session was owed |
| Portal.EVotingPortal.CastVoid | e-voting-portal/src/App.jsx:153-165 | refused with nothing changed when voting ended or the session is locked; otherwise only the void count goes up by one and the session is cleared and locked |
| Portal.EVotingPortal.EndVoting | e-voting-portal/src/App.jsx:167-170 | voting is closed and results show; nothing else changes, so a second call changes nothing |
| Portal.EVotingPortal.ReopenVoting | e-voting-portal/src/App.jsx:172-174 | voting is opened again; counters and used keys are kept |
| Portal.EVotingPortal.ResetElection | e-voting-portal/src/App.jsx:176-189 | unconfirmed, nothing changes; confirmed, the store is the fresh store and the session is cleared, locked and hidden |
| Portal.EVotingPortal.ExportCSV | e-voting-portal/src/App.jsx:191-199 | the exported text reads back as the tally's rows when no party name holds a comma or newline |
| Portal.EVotingPortal.BallotsBounded | e-voting-portal/src/App.jsx:119-165 | in every reachable state, the counted ballots (party votes plus void) are at most the number of directory voters |
| Portal.EVotingPortal.ShippedBallotsBounded | e-voting-portal/src/App.jsx:77-88 | with the ten shipped credentials, no election counts more than ten ballots |

## Left out

- Persistence: the store is not loaded from or saved to `localStorage`. The
  constructor always starts from the fresh store, and a corrupted or foreign
  saved store is not modelled.
- Date parsing and the age check: `new Date(...)`, today's date and
  `toISOString().slice(0, 10)` depend on the clock and the time zone. They
  become the input `DobCheck` of `GetCredentials`: an unparsable date, a
  minor, or an adult together with the rendered passcode.
- Alerts, the confirmation dialog, console logging and the file download are
  left out. Each alert branch is a distinct `AuthOutcome`/`BallotOutcome`
  value, the dialog's answer is the `confirmed` parameter, and `ExportCSV`
  returns the text instead of downloading it. The dated file name is not
  modelled.
- Rendering, animation and the chart library are left out. `showResults` is
  modelled as a field, but the condition under which the results panel is
  drawn is not.
- React's batched state updates: each handler is one atomic step over the
  state it reads.
- Portal.EVotingPortal.constructor: takes the directory as a parameter. The
  component always uses its ten literal `validCredentials`, and
  `ShippedBallotsBounded` states the bound for that directory.
- Duplicate party ids: the model requires distinct ids (`Configured`). The
  source would merge such parties into one counter.
- Text.DecimalString: renders every count in plain decimal. JavaScript
  switches to exponent notation from 10^21 on, which the model does not
  capture.
- Tally.CsvRoundTrip: holds only for party names without commas or
  newlines. The export does no quoting, so other names do not read back.
