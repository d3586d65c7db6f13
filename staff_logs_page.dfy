/**
 * The owner's staff-log page (src/app/dashboard/staff-logs/page.tsx): the
 * audit rows it holds, the header cards computed from them, how a row's
 * action and details are shown, and the query it sends for the filters.
 */
module StaffLogsPage {
  import opened Wrappers
  import opened JsonValue
  import opened JsText
  import opened Seqs
  import Db
  import ActivityLogsRoute

  /** One row as the page receives it: the audit row with the user's name and email joined in. */
  datatype LogView = LogView(
    id: string, userName: string, userEmail: string, role: string, action: string, entity: string,
    entityId: Option<string>, details: Option<Json>, ipAddress: Option<string>, timestamp: int)

  /** `actionLabels`, in declaration order (which is also the order of the action filter's options). */
  const ActionLabelTable: seq<(string, string)> := [
    ("CREATE_MEMBER", "Created Member"),
    ("UPDATE_MEMBER", "Updated Member"),
    ("DELETE_MEMBER", "Deleted Member"),
    ("CREATE_TRANSACTION", "Created Transaction"),
    ("UPDATE_TRANSACTION", "Updated Transaction"),
    ("DELETE_TRANSACTION", "Deleted Transaction"),
    ("CREATE_CAMPAIGN", "Created Campaign"),
    ("UPDATE_CAMPAIGN", "Updated Campaign"),
    ("DELETE_CAMPAIGN", "Deleted Campaign")
  ]

  /** `actionLabels[action]`: the label of an action the table lists. */
  function LabelOf(action: string): (found: Option<string>)
    ensures found.Some? <==> exists i :: 0 <= i < |ActionLabelTable| && ActionLabelTable[i].0 == action
    ensures found.Some? ==> found.value != "" && (action, found.value) in ActionLabelTable
  {
    FindLabel(ActionLabelTable, action)
  }

  function FindLabel(table: seq<(string, string)>, action: string): (found: Option<string>)
    requires forall i :: 0 <= i < |table| ==> table[i].1 != ""
    ensures found.Some? <==> exists i :: 0 <= i < |table| && table[i].0 == action
    ensures found.Some? ==> found.value != "" && (action, found.value) in table
  {
    if table == [] then None
    else if table[0].0 == action then Some(table[0].1)
    else
      var rest := FindLabel(table[1..], action);
      assert forall i :: 1 <= i < |table| ==> table[i] == table[1..][i - 1];
      rest
  }

  /** The Action column: `actionLabels[action] || action`. */
  function ActionText(action: string): (text: string)
    ensures LabelOf(action).Some? ==> text == LabelOf(action).value
    ensures LabelOf(action).None? ==> text == action
  {
    LabelOf(action).GetOr(action)
  }

  /**
   * What the handlers record reads as follows: members and absences both
   * as "Created Member", both kinds of transaction as "Created
   * Transaction", campaigns as "Created Campaign", and campaign logs show
   * their raw action, which the table does not list.
   */
  lemma RecordedActionsAsShown()
    ensures ActionText("CREATE_MEMBER") == "Created Member"
    ensures ActionText("CREATE_TRANSACTION") == "Created Transaction"
    ensures ActionText("CREATE_CAMPAIGN") == "Created Campaign"
    ensures ActionText("CREATE_MK_LOG") == "CREATE_MK_LOG"
  {
    MemberActionShown();
    TransactionActionShown();
    CampaignActionShown();
    CampaignLogActionIsRaw();
  }

  lemma MemberActionShown()
    ensures ActionText("CREATE_MEMBER") == "Created Member"
  {
    assert ActionLabelTable[0].0 == "CREATE_MEMBER";
  }

  lemma TransactionActionShown()
    ensures ActionText("CREATE_TRANSACTION") == "Created Transaction"
  {
    assert ActionLabelTable[3].0 == "CREATE_TRANSACTION";
    assert forall j :: 0 <= j < 3 ==> |ActionLabelTable[j].0| != |"CREATE_TRANSACTION"|;
  }

  lemma CampaignActionShown()
    ensures ActionText("CREATE_CAMPAIGN") == "Created Campaign"
  {
    assert ActionLabelTable[6].0 == "CREATE_CAMPAIGN";
    assert forall j :: 0 <= j < 6 ==> |ActionLabelTable[j].0| != |"CREATE_CAMPAIGN"|;
  }

  lemma CampaignLogActionIsRaw()
    ensures ActionText("CREATE_MK_LOG") == "CREATE_MK_LOG"
  {
    assert forall i :: 0 <= i < |ActionLabelTable| ==> ActionLabelTable[i].0 != "CREATE_MK_LOG" by {
      forall i | 0 <= i < |ActionLabelTable| ensures ActionLabelTable[i].0 != "CREATE_MK_LOG" {
        var k := ActionLabelTable[i].0;
        assert |k| != 13 || k[8] != 'K';
      }
    }
  }

  /** The action filter offers "all" and the table's actions, in table order. */
  function ActionOptions(): (options: seq<string>)
    ensures |options| == |ActionLabelTable| + 1 && options[0] == "all"
    ensures forall i :: 0 <= i < |ActionLabelTable| ==> options[i + 1] == ActionLabelTable[i].0
  {
    ["all"] + seq(|ActionLabelTable|, i requires 0 <= i < |ActionLabelTable| => ActionLabelTable[i].0)
  }

  // ---------------------------------------------------------------------
  // Header cards

  /** The emails of the users who appear in `logs`. */
  function Emails(logs: seq<LogView>): (emails: set<string>)
    ensures |emails| <= |logs|
  {
    if logs == [] then {} else {logs[0].userEmail} + Emails(logs[1..])
  }

  /** An email is collected exactly when some row carries it. */
  lemma {:induction false} EmailsMembers(logs: seq<LogView>, e: string)
    ensures e in Emails(logs) <==> exists i :: 0 <= i < |logs| && logs[i].userEmail == e
  {
    if logs != [] {
      EmailsMembers(logs[1..], e);
      if e in Emails(logs[1..]) {
        var i :| 0 <= i < |logs[1..]| && logs[1..][i].userEmail == e;
        assert logs[i + 1].userEmail == e;
      }
      if e != logs[0].userEmail && exists i :: 0 <= i < |logs| && logs[i].userEmail == e {
        var i :| 0 <= i < |logs| && logs[i].userEmail == e;
        assert logs[1..][i - 1].userEmail == e;
      }
    }
  }

  /** "Active Staff": `new Set(logs.map(log => log.user.email)).size`. */
  function ActiveStaff(logs: seq<LogView>): (n: nat)
    ensures n <= |logs|
    ensures |logs| > 0 ==> n >= 1
  {
    |Emails(logs)|
  }

  /** When every row comes from a different email, each row is a different staff member. */
  lemma {:induction false} DistinctEmailsCountEveryRow(logs: seq<LogView>)
    requires forall i, j :: 0 <= i < j < |logs| ==> logs[i].userEmail != logs[j].userEmail
    ensures ActiveStaff(logs) == |logs|
  {
    if logs != [] {
      var rest := logs[1..];
      assert forall i, j :: 0 <= i < j < |rest| ==> rest[i].userEmail != rest[j].userEmail by {
        forall i, j | 0 <= i < j < |rest| ensures rest[i].userEmail != rest[j].userEmail {
          assert rest[i] == logs[i + 1] && rest[j] == logs[j + 1];
        }
      }
      DistinctEmailsCountEveryRow(rest);
      forall k | 0 <= k < |rest| ensures rest[k].userEmail != logs[0].userEmail {
        assert rest[k] == logs[k + 1];
      }
      EmailsMembers(rest, logs[0].userEmail);
      assert logs[0].userEmail !in Emails(rest);
    }
  }

  /** Rows that all come from one email make one active staff member. */
  lemma OneUserIsOneStaff(logs: seq<LogView>, email: string)
    requires |logs| > 0
    requires forall i :: 0 <= i < |logs| ==> logs[i].userEmail == email
    ensures ActiveStaff(logs) == 1
  {
    forall e ensures e in Emails(logs) <==> e == email {
      EmailsMembers(logs, e);
    }
    assert Emails(logs) == {email};
  }

  /** "Total Actions Today": the rows whose calendar day (`toDateString`) is today's. */
  function ActionsToday(logs: seq<LogView>, dayOf: int -> int, now: int): (n: nat)
    ensures n <= |logs|
    ensures n == |Filter(logs, (l: LogView) => dayOf(l.timestamp) == dayOf(now))|
  {
    CountIsFilterLength(logs, (l: LogView) => dayOf(l.timestamp) == dayOf(now));
    Count(logs, (l: LogView) => dayOf(l.timestamp) == dayOf(now))
  }

  function HasAction(action: string): LogView -> bool {
    (l: LogView) => l.action == action
  }

  /** How many of the first `n` rows record `action`: the tally the `reduce` keeps. */
  function OccurrencesIn(logs: seq<LogView>, n: nat, action: string): (c: nat)
    requires n <= |logs|
    ensures c <= n
  {
    if n == 0 then 0
    else OccurrencesIn(logs, n - 1, action) + (if logs[n - 1].action == action then 1 else 0)
  }

  /** How many rows record `action`. */
  function Occurrences(logs: seq<LogView>, action: string): nat {
    OccurrencesIn(logs, |logs|, action)
  }

  /** The tally agrees with counting the rows that record the action. */
  lemma {:induction false} OccurrencesInIsCount(logs: seq<LogView>, n: nat, action: string)
    requires n <= |logs|
    ensures OccurrencesIn(logs, n, action) == Count(logs[..n], HasAction(action))
  {
    if n > 0 {
      OccurrencesInIsCount(logs, n - 1, action);
      assert logs[..n] == logs[..n - 1] + [logs[n - 1]];
      CountSnoc(logs[..n - 1], logs[n - 1], HasAction(action));
    }
  }

  lemma OccurrencesIsCount(logs: seq<LogView>, action: string)
    ensures Occurrences(logs, action) == Count(logs, HasAction(action))
  {
    OccurrencesInIsCount(logs, |logs|, action);
    assert logs[..|logs|] == logs;
  }

  /** An action none of the first `n` rows records has no occurrences among them. */
  lemma {:induction false} NoOccurrences(logs: seq<LogView>, n: nat, action: string)
    requires n <= |logs|
    requires forall j :: 0 <= j < n ==> logs[j].action != action
    ensures OccurrencesIn(logs, n, action) == 0
  {
    if n > 0 {
      NoOccurrences(logs, n - 1, action);
    }
  }

  /**
   * After `n` rows: `keys[p]` first appears at row `firsts[p]`, and the
   * `firsts` increase, so `keys` lists the actions in first-appearance order.
   */
  ghost predicate FirstSeen(logs: seq<LogView>, n: nat, keys: seq<string>, firsts: seq<nat>) {
    n <= |logs| && |firsts| == |keys| &&
    (forall p :: 0 <= p < |keys| ==> firsts[p] < n && logs[firsts[p]].action == keys[p]) &&
    (forall p, q :: 0 <= p < q < |keys| ==> firsts[p] < firsts[q]) &&
    (forall p, j :: 0 <= p < |keys| && 0 <= j < firsts[p] ==> logs[j].action != keys[p])
  }

  /** After `n` rows: every action seen is a key of `counts`, mapped to its number of rows so far. */
  ghost predicate Tallied(logs: seq<LogView>, n: nat, keys: seq<string>, counts: map<string, nat>)
    requires n <= |logs|
  {
    (forall j :: 0 <= j < n ==> logs[j].action in counts) &&
    (forall k :: k in counts <==> k in keys) &&
    (forall k | k in counts :: counts[k] == OccurrencesIn(logs, n, k))
  }

  /** Row `i` repeats an action already counted. */
  lemma CountSeenAction(logs: seq<LogView>, i: nat, keys: seq<string>, firsts: seq<nat>, counts: map<string, nat>)
    requires i < |logs| && FirstSeen(logs, i, keys, firsts) && Tallied(logs, i, keys, counts)
    requires logs[i].action in counts
    ensures FirstSeen(logs, i + 1, keys, firsts)
    ensures Tallied(logs, i + 1, keys, counts[logs[i].action := counts[logs[i].action] + 1])
  {
    var a := logs[i].action;
    var updated := counts[a := counts[a] + 1];
    forall k | k in updated ensures updated[k] == OccurrencesIn(logs, i + 1, k) {
    }
  }

  /** Row `i` brings a new action: it becomes the last key, first seen at `i`. */
  lemma NewActionFirstSeen(logs: seq<LogView>, i: nat, keys: seq<string>, firsts: seq<nat>, counts: map<string, nat>)
    requires i < |logs| && FirstSeen(logs, i, keys, firsts) && Tallied(logs, i, keys, counts)
    requires logs[i].action !in counts
    ensures FirstSeen(logs, i + 1, keys + [logs[i].action], firsts + [i])
  {
    var a := logs[i].action;
    assert forall j :: 0 <= j < i ==> logs[j].action != a;
  }

  /** Row `i` brings a new action: it is counted once. */
  lemma NewActionTallied(logs: seq<LogView>, i: nat, keys: seq<string>, counts: map<string, nat>)
    requires i < |logs| && Tallied(logs, i, keys, counts)
    requires logs[i].action !in counts
    ensures Tallied(logs, i + 1, keys + [logs[i].action], counts[logs[i].action := 1])
  {
    var a := logs[i].action;
    var updated := counts[a := 1];
    NoOccurrences(logs, i, a);
    forall k | k in updated ensures updated[k] == OccurrencesIn(logs, i + 1, k) {
    }
  }

  /** Both loop facts after `n` rows. */
  ghost predicate Counted(logs: seq<LogView>, n: nat, keys: seq<string>, counts: map<string, nat>, firsts: seq<nat>) {
    FirstSeen(logs, n, keys, firsts) && Tallied(logs, n, keys, counts)
  }

  /** The `reduce` callback: `acc[action] = (acc[action] || 0) + 1`. */
  function Bump(counts: map<string, nat>, action: string): map<string, nat> {
    counts[action := (if action in counts then counts[action] else 0) + 1]
  }

  /** The accumulator's key order: a key joins at the end the first time it is set. */
  function NextKeys(keys: seq<string>, counts: map<string, nat>, action: string): seq<string> {
    if action in counts then keys else keys + [action]
  }

  ghost function NextFirsts(firsts: seq<nat>, counts: map<string, nat>, action: string, i: nat): seq<nat> {
    if action in counts then firsts else firsts + [i]
  }

  /** One call of the callback keeps both loop facts. */
  lemma TallyStep(logs: seq<LogView>, i: nat, keys: seq<string>, counts: map<string, nat>, firsts: seq<nat>)
    requires i < |logs| && Counted(logs, i, keys, counts, firsts)
    ensures Counted(logs, i + 1, NextKeys(keys, counts, logs[i].action), Bump(counts, logs[i].action),
                    NextFirsts(firsts, counts, logs[i].action, i))
  {
    if logs[i].action in counts {
      CountSeenAction(logs, i, keys, firsts, counts);
    } else {
      NewActionFirstSeen(logs, i, keys, firsts, counts);
      NewActionTallied(logs, i, keys, counts);
    }
  }

  /** After every row, the loop facts are the method's promises. */
  lemma CountedAll(logs: seq<LogView>, keys: seq<string>, counts: map<string, nat>, firsts: seq<nat>)
    requires Counted(logs, |logs|, keys, counts, firsts)
    ensures |firsts| == |keys|
    ensures forall p :: 0 <= p < |keys| ==> firsts[p] < |logs| && logs[firsts[p]].action == keys[p]
    ensures forall p, q :: 0 <= p < q < |keys| ==> firsts[p] < firsts[q]
    ensures forall p, j :: 0 <= p < |keys| && 0 <= j < firsts[p] ==> logs[j].action != keys[p]
    ensures forall j :: 0 <= j < |logs| ==> logs[j].action in counts
    ensures forall k :: k in counts <==> k in keys
    ensures forall k | k in counts :: counts[k] == Occurrences(logs, k)
  {
  }

  /**
   * The `reduce` that counts rows per action: `keys` are the actions in the
   * order they first appear (the key order of the accumulator object), and
   * `counts` maps each to its number of rows. `firsts[p]` is the row where
   * `keys[p]` first appears.
   */
  method CountActions(logs: seq<LogView>) returns (keys: seq<string>, counts: map<string, nat>, ghost firsts: seq<nat>)
    ensures |firsts| == |keys|
    ensures forall p :: 0 <= p < |keys| ==> firsts[p] < |logs| && logs[firsts[p]].action == keys[p]
    ensures forall p, q :: 0 <= p < q < |keys| ==> firsts[p] < firsts[q]
    ensures forall p, j :: 0 <= p < |keys| && 0 <= j < firsts[p] ==> logs[j].action != keys[p]
    ensures forall j :: 0 <= j < |logs| ==> logs[j].action in counts
    ensures forall k :: k in counts <==> k in keys
    ensures forall k | k in counts :: counts[k] == Occurrences(logs, k)
  {
    keys, counts, firsts := [], map[], [];
    var i := 0;
    while i < |logs|
      invariant 0 <= i <= |logs|
      // compared with `true` so that the verifier keeps it as one fact instead of unfolding it
      invariant Counted(logs, i, keys, counts, firsts) == true
    {
      var a := logs[i].action;
      TallyStep(logs, i, keys, counts, firsts);
      keys, counts, firsts := NextKeys(keys, counts, a), Bump(counts, a), NextFirsts(firsts, counts, a, i);
      i := i + 1;
    }
    CountedAll(logs, keys, counts, firsts);
  }

  /**
   * `entries.sort(([, a], [, b]) => b - a)[0]`: the sort is stable, so the
   * first entry is the earliest key whose count no other key exceeds.
   */
  method FirstOfSorted(keys: seq<string>, counts: map<string, nat>) returns (best: nat)
    requires |keys| > 0
    requires forall p :: 0 <= p < |keys| ==> keys[p] in counts
    ensures best < |keys|
    ensures forall p :: 0 <= p < |keys| ==> counts[keys[p]] <= counts[keys[best]]
    ensures forall p :: 0 <= p < best ==> counts[keys[p]] < counts[keys[best]]
  {
    best := 0;
    var k := 1;
    while k < |keys|
      invariant 1 <= k <= |keys| && 0 <= best < k
      invariant forall p :: 0 <= p < k ==> counts[keys[p]] <= counts[keys[best]]
      invariant forall p :: 0 <= p < best ==> counts[keys[p]] < counts[keys[best]]
    {
      if counts[keys[k]] > counts[keys[best]] {
        best := k;
      }
      k := k + 1;
    }
  }

  /**
   * "Most Common Action": the action with the most rows, ties going to the
   * one that appears first (the sort is stable over the accumulator's key
   * order), shown by its label; "-" for no rows or an unlabelled winner.
   */
  method MostCommonAction(logs: seq<LogView>) returns (winner: Option<string>, text: string)
    ensures winner.None? <==> |logs| == 0
    ensures winner.None? ==> text == "-"
    ensures winner.Some? ==> text == LabelOf(winner.value).GetOr("-")
    ensures winner.Some? ==> exists j :: 0 <= j < |logs| && logs[j].action == winner.value
    ensures winner.Some? ==> forall j :: 0 <= j < |logs| ==>
              Occurrences(logs, logs[j].action) <= Occurrences(logs, winner.value)
    ensures winner.Some? ==> forall j :: (0 <= j < |logs| &&
              Occurrences(logs, logs[j].action) == Occurrences(logs, winner.value)) ==>
              exists j' :: 0 <= j' <= j && logs[j'].action == winner.value
  {
    if |logs| == 0 {
      return None, "-";
    }
    var keys: seq<string>, counts: map<string, nat>;
    ghost var firsts: seq<nat>;
    keys, counts, firsts := CountActions(logs);
    assert logs[0].action in keys;
    var best := FirstOfSorted(keys, counts);
    var w := keys[best];
    forall j | 0 <= j < |logs|
      ensures Occurrences(logs, logs[j].action) <= Occurrences(logs, w)
      ensures Occurrences(logs, logs[j].action) == Occurrences(logs, w) ==>
              exists j' :: 0 <= j' <= j && logs[j'].action == w
    {
      var a := logs[j].action;
      var p :| 0 <= p < |keys| && keys[p] == a;
      if Occurrences(logs, a) == Occurrences(logs, w) {
        assert p >= best;
        assert firsts[best] <= firsts[p] <= j;
        assert logs[firsts[best]].action == w;
      }
    }
    assert logs[firsts[best]].action == w;
    winner, text := Some(w), LabelOf(w).GetOr("-");
  }

  // ---------------------------------------------------------------------
  // Cells

  /** JavaScript truthiness of a details value; `None` is `undefined`. */
  predicate Truthy(details: Option<Json>) {
    match details
    case None => false
    case Some(JNull) => false
    case Some(JBool(b)) => b
    case Some(JNum(n)) => n != 0
    case Some(JStr(s)) => s != ""
    case Some(_) => true
  }

  /**
   * `${value}` for a member of a details object. The page receives the
   * details as JSON, so a date arrives as its ISO text `iso(ms)`. An array
   * reads as its elements' texts joined with ",", a `null` element giving
   * the empty text (`Array.prototype.toString`); an object reads
   * "[object Object]".
   */
  function ValueText(v: Json, iso: int -> string): string
    decreases v, 0
  {
    match v
    case JNull => "null"
    case JBool(b) => if b then "true" else "false"
    case JNum(n) => IntToString(n)
    case JStr(s) => s
    case JDate(ms) => iso(ms)
    case JArr(items) => Join(seq(|items|, i requires 0 <= i < |items| => ElementText(items[i], iso)), ",")
    case JObj(_) => "[object Object]"
  }

  /** The text of an array element: "" for `null`, otherwise its own text. */
  function ElementText(v: Json, iso: int -> string): string
    decreases v, 1
  {
    if v.JNull? then "" else ValueText(v, iso)
  }

  function EntryText(key: string, v: Json, iso: int -> string): string {
    key + ": " + ValueText(v, iso)
  }

  /** The `key: value` text of each member, in order. */
  function EntryTexts(fields: seq<(string, Json)>, iso: int -> string): (parts: seq<string>)
    ensures |parts| == |fields|
    ensures forall i :: 0 <= i < |fields| ==> parts[i] == EntryText(fields[i].0, fields[i].1, iso)
  {
    if fields == [] then [] else [EntryText(fields[0].0, fields[0].1, iso)] + EntryTexts(fields[1..], iso)
  }

  lemma EntryTexts2(fields: seq<(string, Json)>, iso: int -> string)
    requires |fields| == 2
    ensures EntryTexts(fields, iso) ==
            [EntryText(fields[0].0, fields[0].1, iso), EntryText(fields[1].0, fields[1].1, iso)]
  {
  }

  lemma EntryTexts3(fields: seq<(string, Json)>, iso: int -> string)
    requires |fields| == 3
    ensures EntryTexts(fields, iso) ==
            [EntryText(fields[0].0, fields[0].1, iso), EntryText(fields[1].0, fields[1].1, iso),
             EntryText(fields[2].0, fields[2].1, iso)]
  {
  }

  /** A string-valued entry reads "key: value". */
  lemma StringEntry(key: string, keyText: string, s: string, iso: int -> string)
    requires keyText == key + ": "
    ensures EntryText(key, JStr(s), iso) == keyText + s
  {
  }

  /** `Object.entries` of an array: each element under its index, counting from `from`. */
  function Indexed(items: seq<Json>, from: nat): (fields: seq<(string, Json)>)
    ensures |fields| == |items|
    ensures forall i :: 0 <= i < |items| ==> fields[i] == (NatToString(from + i), items[i])
  {
    if items == [] then [] else [(NatToString(from), items[0])] + Indexed(items[1..], from + 1)
  }

  /**
   * The Details column: "-" for falsy details; for an object (an array
   * included, keyed by index) its `key: value` pairs joined with ", ";
   * otherwise the value itself (`true` renders as nothing).
   */
  function DetailsText(details: Option<Json>, iso: int -> string): (text: string)
    ensures !Truthy(details) ==> text == "-"
    ensures details.Some? && details.value.JObj? ==> text == Join(EntryTexts(details.value.fields, iso), ", ")
    ensures details.Some? && details.value.JArr? ==> text == Join(EntryTexts(Indexed(details.value.items, 0), iso), ", ")
    ensures Truthy(details) && details.value.JStr? ==> text == details.value.s
    ensures Truthy(details) && details.value.JNum? ==> text == IntToString(details.value.n)
    ensures Truthy(details) && details.value.JDate? ==> text == iso(details.value.ms)
    ensures details == Some(JBool(true)) ==> text == ""
  {
    if !Truthy(details) then "-"
    else if details.value.JObj? then Join(EntryTexts(details.value.fields, iso), ", ")
    else if details.value.JArr? then Join(EntryTexts(Indexed(details.value.items, 0), iso), ", ")
    else if details.value.JStr? then details.value.s
    else if details.value.JNum? then IntToString(details.value.n)
    else if details.value.JDate? then iso(details.value.ms)
    else ""
  }

  /** A string element reads as itself. */
  lemma StringElementText(a: string, iso: int -> string)
    ensures ElementText(JStr(a), iso) == a
  {
    assert ValueText(JStr(a), iso) == a;
  }

  /**
   * A member holding an array of two strings reads "key: a,b", and a member
   * holding `[a, null, b]` reads "key: a,,b".
   */
  lemma ArrayMemberText(key: string, a: string, b: string, iso: int -> string)
    ensures DetailsText(Some(JObj([(key, JArr([JStr(a), JStr(b)]))])), iso) == key + ": " + (a + "," + b)
    ensures DetailsText(Some(JObj([(key, JArr([JStr(a), JNull, JStr(b)]))])), iso) == key + ": " + (a + "," + ("" + "," + b))
  {
    StringElementText(a, iso);
    StringElementText(b, iso);
    assert ElementText(JNull, iso) == "";
    var two := [JStr(a), JStr(b)];
    assert seq(|two|, i requires 0 <= i < |two| => ElementText(two[i], iso)) == [a, b];
    Join2(a, b, ",");
    var three := [JStr(a), JNull, JStr(b)];
    assert seq(|three|, i requires 0 <= i < |three| => ElementText(three[i], iso)) == [a, "", b];
    assert Join([a, "", b], ",") == a + "," + Join(["", b], ",");
    Join2("", b, ",");
    assert EntryTexts([(key, JArr(two))], iso) == [EntryText(key, JArr(two), iso)];
    assert EntryTexts([(key, JArr(three))], iso) == [EntryText(key, JArr(three), iso)];
  }

  /** Three string members read "k1: v1, k2: v2, k3: v3". */
  lemma ThreeStringFieldsText(k1: string, k2: string, k3: string, v1: string, v2: string, v3: string,
                              iso: int -> string)
    ensures DetailsText(Some(JObj([(k1, JStr(v1)), (k2, JStr(v2)), (k3, JStr(v3))])), iso) ==
            ((k1 + ": ") + v1) + ", " + ((k2 + ": ") + v2) + ", " + ((k3 + ": ") + v3)
  {
    var fields := [(k1, JStr(v1)), (k2, JStr(v2)), (k3, JStr(v3))];
    EntryTexts3(fields, iso);
    StringEntry(k1, k1 + ": ", v1, iso);
    StringEntry(k2, k2 + ": ", v2, iso);
    StringEntry(k3, k3 + ": ", v3, iso);
    Join3((k1 + ": ") + v1, (k2 + ": ") + v2, (k3 + ": ") + v3, ", ");
  }

  lemma CampaignKeyTexts()
    ensures "name" + ": " == "name: " && "type" + ": " == "type: " && "status" + ": " == "status: "
  {
  }

  /** A campaign's audit details read "name: …, type: …, status: …". */
  lemma CampaignAuditDetailsText(name: string, kind: string, status: string, iso: int -> string)
    ensures DetailsText(Some(JObj([("name", JStr(name)), ("type", JStr(kind)), ("status", JStr(status))])), iso) ==
            ("name: " + name) + ", " + ("type: " + kind) + ", " + ("status: " + status)
  {
    ThreeStringFieldsText("name", "type", "status", name, kind, status, iso);
    CampaignKeyTexts();
  }

  /** Empty object details are truthy, so the cell is blank rather than "-". */
  lemma EmptyObjectDetailsAreBlank(iso: int -> string)
    ensures DetailsText(Some(JObj([])), iso) == ""
    ensures DetailsText(None, iso) == "-" && DetailsText(Some(JNull), iso) == "-"
  {
  }

  /** Array details are objects too: each element is shown under its index. */
  lemma ArrayDetailsAreIndexed(a: string, b: int, iso: int -> string)
    ensures DetailsText(Some(JArr([JStr(a), JNum(b)])), iso) == ("0: " + a) + ", " + ("1: " + IntToString(b))
  {
    var fields := Indexed([JStr(a), JNum(b)], 0);
    assert NatToString(0) == "0" && NatToString(1) == "1";
    assert fields == [("0", JStr(a)), ("1", JNum(b))];
    EntryTexts2(fields, iso);
    StringEntry("0", "0: ", a, iso);
    assert "1" + ": " == "1: ";
    Join2("0: " + a, "1: " + IntToString(b), ", ");
  }

  /** The Role badge: the first underscore becomes a space. */
  function RoleText(role: string): (text: string)
    ensures |text| == |role|
  {
    ReplaceFirst(role, '_', ' ')
  }

  lemma RoleWords()
    ensures "FRONT_OFFICE" == "FRONT" + ['_'] + "OFFICE"
    ensures "FRONT OFFICE" == "FRONT" + [' '] + "OFFICE"
  {
  }

  lemma RoleTextOfFrontOffice()
    ensures RoleText("FRONT_OFFICE") == "FRONT OFFICE"
  {
    RoleWords();
    ReplaceFirstBetween("FRONT", "OFFICE", '_', ' ');
  }

  // ---------------------------------------------------------------------
  // Query

  /** The query the page sends: `userId`, then `action`, each only when its selection is not "all". */
  function RequestParams(selectedUser: string, selectedAction: string): (params: seq<(string, string)>)
    ensures ("userId", selectedUser) in params <==> selectedUser != "all"
    ensures ("action", selectedAction) in params <==> selectedAction != "all"
    ensures forall i :: 0 <= i < |params| ==>
              params[i] == ("userId", selectedUser) || params[i] == ("action", selectedAction)
  {
    (if selectedUser != "all" then [("userId", selectedUser)] else []) +
    (if selectedAction != "all" then [("action", selectedAction)] else [])
  }

  /** `searchParams.get(name)`: the first value under `name`. */
  function Param(params: seq<(string, string)>, name: string): (value: Option<string>)
    ensures value.Some? <==> exists i :: 0 <= i < |params| && params[i].0 == name
    ensures value.Some? ==> (name, value.value) in params
  {
    if params == [] then None
    else if params[0].0 == name then Some(params[0].1)
    else
      var rest := Param(params[1..], name);
      assert forall i :: 1 <= i < |params| ==> params[i] == params[1..][i - 1];
      rest
  }

  /**
   * The page's filters, read back by the activity-log handler, select
   * exactly the rows of the chosen user and the chosen action ("all", or
   * an empty choice, leaving that side open).
   */
  lemma FiltersReachTheQuery(selectedUser: string, selectedAction: string, l: Db.ActivityLog)
    ensures var params := RequestParams(selectedUser, selectedAction);
            ActivityLogsRoute.Selected(l, Param(params, "userId"), Param(params, "action")) <==>
            (selectedUser == "all" || selectedUser == "" || l.userId == selectedUser) &&
            (selectedAction == "all" || selectedAction == "" || l.action == selectedAction)
  {
    var params := RequestParams(selectedUser, selectedAction);
    var u := Param(params, "userId");
    var a := Param(params, "action");
    assert u == (if selectedUser != "all" then Some(selectedUser) else None);
    assert a == (if selectedAction != "all" then Some(selectedAction) else None) by {
      if selectedUser != "all" {
        assert params[0].0 == "userId";
      }
    }
  }

  // ---------------------------------------------------------------------
  // Page state

  /** The page's state: the rows last loaded and the two filter selections. */
  class StaffLogs {
    var logs: seq<LogView>
    var selectedUser: string
    var selectedAction: string

    constructor ()
      ensures logs == [] && selectedUser == "all" && selectedAction == "all"
    {
      logs, selectedUser, selectedAction := [], "all", "all";
    }

    /** `loadLogs`: an ok response replaces the rows; any other outcome keeps them. */
    method Load(ok: bool, data: seq<LogView>)
      modifies this
      ensures logs == (if ok then data else old(logs))
      ensures selectedUser == old(selectedUser) && selectedAction == old(selectedAction)
    {
      if ok {
        logs := data;
      }
    }

    method SelectUser(user: string)
      modifies this
      ensures selectedUser == user && selectedAction == old(selectedAction) && logs == old(logs)
    {
      selectedUser := user;
    }

    method SelectAction(action: string)
      modifies this
      ensures selectedAction == action && selectedUser == old(selectedUser) && logs == old(logs)
    {
      selectedAction := action;
    }

    /** "Total Logs": every row held, never fewer than the staff members among them. */
    function TotalLogs(): (n: nat)
      reads this
      ensures n == |logs| && n >= ActiveStaff(logs)
    {
      |logs|
    }

    /** The query for the current selections. */
    function Query(): (params: seq<(string, string)>)
      reads this
      ensures |params| <= 2
      ensures |params| == (if selectedUser != "all" then 1 else 0) + (if selectedAction != "all" then 1 else 0)
    {
      RequestParams(selectedUser, selectedAction)
    }
  }
}
