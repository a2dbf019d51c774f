/** TOTP recovery codes: one encrypted list per user, consumed by concurrent
    requests through a read, a removal and a compare-and-swap. A ciphertext is
    known by its serial number: every encryption makes a new one. */
module Recovery {
  import opened Basics

  // ----- codes -----

  function Without(s: string, drop: char -> bool): string {
    if s == "" then "" else (if drop(s[0]) then "" else [s[0]]) + Without(s[1..], drop)
  }

  const SEPARATOR: char -> bool := c => c == '-' || c == ' '

  /** The canonical form of a typed code: lower case, no dashes or spaces, and
      the dash put back when eight characters are left. */
  function Normalize(raw: string): string {
    var s := Without(Lower(TrimSpace(raw)), SEPARATOR);
    if |s| == 8 then s[..4] + "-" + s[4..] else s
  }

  function FirstIndex(codes: seq<string>, code: string): Option<nat> {
    if codes == [] then None
    else if codes[0] == code then Some(0)
    else
      match FirstIndex(codes[1..], code)
      case None => None
      case Some(i) => Some(i + 1)
  }

  /** The list without the first code that matches, None when nothing matches. */
  function Consumed(codes: seq<string>, typed: string): Option<seq<string>> {
    var norm := Normalize(typed);
    if norm == "" then None
    else
      match FirstIndex(codes, norm)
      case None => None
      case Some(i) => if i < |codes| then Some(codes[..i] + codes[i + 1..]) else None
  }

  lemma {:induction false} FirstIndexFinds(codes: seq<string>, code: string)
    ensures FirstIndex(codes, code).None? <==> code !in codes
    ensures FirstIndex(codes, code).Some? ==>
              var i := FirstIndex(codes, code).value;
              i < |codes| && codes[i] == code && forall j :: 0 <= j < i ==> codes[j] != code
  {
    if codes != [] && codes[0] != code {
      FirstIndexFinds(codes[1..], code);
      assert codes == [codes[0]] + codes[1..];
    }
  }

  lemma {:induction false} FirstIndexIs(codes: seq<string>, code: string, i: nat)
    requires i < |codes| && codes[i] == code && code !in codes[..i]
    ensures FirstIndex(codes, code) == Some(i)
  {
    if i > 0 {
      assert codes[0] in codes[..i] && codes[1..][..i - 1] == codes[..i][1..];
      FirstIndexIs(codes[1..], code, i - 1);
    }
  }

  /** ConsumeRecoveryCode walks the whole list on purpose and remembers the first hit. */
  method ConsumeRecoveryCode(codes: seq<string>, typed: string) returns (rest: seq<string>, matched: bool)
    ensures matched <==> Consumed(codes, typed).Some?
    ensures rest == if matched then Consumed(codes, typed).value else codes
  {
    var norm := Normalize(typed);
    if norm == "" {
      return codes, false;
    }
    var hit := -1;
    for i := 0 to |codes|
      invariant -1 <= hit < i
      invariant hit == -1 ==> norm !in codes[..i]
      invariant hit >= 0 ==> codes[hit] == norm && norm !in codes[..hit]
    {
      if codes[i] == norm && hit == -1 {
        hit := i;
      }
    }
    if hit < 0 {
      assert codes[..|codes|] == codes;
      FirstIndexFinds(codes, norm);
      return codes, false;
    }
    FirstIndexIs(codes, norm, hit);
    return codes[..hit] + codes[hit + 1..], true;
  }

  /** A match takes exactly one copy of the canonical code out of the list. */
  lemma ConsumedTakesOne(codes: seq<string>, typed: string)
    ensures Consumed(codes, typed).Some? <==> Normalize(typed) != "" && Normalize(typed) in codes
    ensures Consumed(codes, typed).Some? ==>
              multiset(Consumed(codes, typed).value) + multiset{Normalize(typed)} == multiset(codes)
  {
    var norm := Normalize(typed);
    FirstIndexFinds(codes, norm);
    if norm != "" && FirstIndex(codes, norm).Some? {
      var i := FirstIndex(codes, norm).value;
      assert codes == codes[..i] + [norm] + codes[i + 1..];
    }
  }

  // ----- the stored row -----

  /** The decrypted content of the row and the serial number of its ciphertext. */
  datatype Blob = Blob(serial: nat, codes: seq<string>)

  /** The stored row, and the number of ciphertexts made so far. */
  datatype Row = Row(blob: Blob, serials: nat)

  /** SaveRecoveryCodes: the unconditional overwrite of a regeneration. */
  function Saved(r: Row, codes: seq<string>): Row {
    Row(Blob(r.serials, codes), r.serials + 1)
  }

  /** SaveRecoveryCodesCAS: writes only over the ciphertext the caller read; a
      lost race has made a ciphertext all the same. */
  function SavedOver(r: Row, previous: nat, codes: seq<string>): (Row, bool) {
    if r.blob.serial == previous then (Saved(r, codes), true) else (r.(serials := r.serials + 1), false)
  }

  const MAX_RETRIES := 3

  /** One recovery request: between attempts, holding a blob it read, or finished. */
  datatype Request =
    | Ready(typed: string, attempt: nat)
    | Holding(typed: string, attempt: nat, seen: Blob, rest: seq<string>)
    | Session(typed: string, remaining: seq<string>)
    | Invalid
    | TryLater

  /** The first part of an attempt: read the row and look for the code in it. */
  function Looked(enabled: bool, blob: Blob, typed: string, attempt: nat): Request {
    if !enabled then Invalid
    else
      match Consumed(blob.codes, typed)
      case None => Invalid
      case Some(rest) => Holding(typed, attempt, blob, rest)
  }

  /** Its second part, after the conditional write. */
  function Answered(r: Request, committed: bool): Request
    requires r.Holding?
  {
    if committed then Session(r.typed, r.rest)
    else if r.attempt == MAX_RETRIES - 1 then TryLater
    else Ready(r.typed, r.attempt + 1)
  }

  class UserRow {
    var blob: Blob
    var serials: nat
    var enabled: bool

    ghost function Value(): Row
      reads this
    {
      Row(blob, serials)
    }

    constructor ()
      ensures Value() == Row(Blob(0, []), 1) && !enabled
    {
      blob, serials, enabled := Blob(0, []), 1, false;
    }

    method SaveCAS(previous: nat, codes: seq<string>) returns (committed: bool)
      modifies this`blob, this`serials
      ensures (Value(), committed) == SavedOver(old(Value()), previous, codes)
    {
      var encrypted := Blob(serials, codes);
      serials := serials + 1;
      committed := blob.serial == previous;
      if committed {
        blob := encrypted;
      }
    }

    method Save(codes: seq<string>)
      modifies this`blob, this`serials
      ensures Value() == Saved(old(Value()), codes)
    {
      blob := Blob(serials, codes);
      serials := serials + 1;
    }

    /** SetUserTOTP: enrolling stores codes and waits for a confirmation. */
    method Enroll(codes: seq<string>)
      modifies this
      ensures Value() == Saved(old(Value()), codes) && !enabled
    {
      Save(codes);
      enabled := false;
    }

    /** ActivateTOTP */
    method Activate()
      modifies this`enabled
      ensures enabled
    {
      enabled := true;
    }

    /** DisableTOTP: no codes are left. A cleared column holds no code, so no
        request ever holds it and it may count as one more ciphertext. */
    method Disable()
      modifies this
      ensures Value() == Saved(old(Value()), []) && !enabled
    {
      Save([]);
      enabled := false;
    }

    /** One attempt up to the write, which comes after other requests may have written. */
    method Look(typed: string, attempt: nat) returns (r: Request)
      ensures r == Looked(enabled, blob, typed, attempt)
    {
      if !enabled {
        return Invalid;
      }
      var rest, matched := ConsumeRecoveryCode(blob.codes, typed);
      r := if matched then Holding(typed, attempt, blob, rest) else Invalid;
    }

    method Swap(r: Request) returns (next: Request)
      requires r.Holding?
      modifies this`blob, this`serials
      ensures var (row, committed) := SavedOver(old(Value()), r.seen.serial, r.rest);
              Value() == row && next == Answered(r, committed)
    {
      var committed := SaveCAS(r.seen.serial, r.rest);
      next := Answered(r, committed);
    }
  }

  // ----- the protocol -----

  /** `batch` is the last generated list, `spent` the codes accepted since, and
      `writes` counts the commits so far. `begun` is that count when a request
      started and `own` says which requests committed a write. */
  datatype World = World(
    blob: Blob, serials: nat, enabled: bool, requests: map<nat, Request>,
    batch: seq<string>, spent: multiset<string>, writes: nat, begun: map<nat, nat>, own: set<nat>)

  datatype Step =
    | Begin(id: nat, typed: string)
    | Read(id: nat)
    | Swap(id: nat)
    | Regenerate(codes: seq<string>)
    | Enroll(codes: seq<string>)
    | Activate
    | Disable

  /** The step replaces the whole list of codes. */
  predicate Generates(s: Step) {
    s.Regenerate? || s.Enroll? || s.Disable?
  }

  function BatchOf(s: Step): seq<string>
    requires Generates(s)
  {
    if s.Disable? then [] else s.codes
  }

  predicate Enabled(w: World, s: Step) {
    match s
    case Begin(id, _) => id !in w.requests
    case Read(id) => id in w.requests && w.requests[id].Ready?
    case Swap(id) => id in w.requests && w.requests[id].Holding?
    case _ => true
  }

  function WithRow(w: World, r: Row): World {
    w.(blob := r.blob, serials := r.serials)
  }

  function RowOf(w: World): Row {
    Row(w.blob, w.serials)
  }

  function Generated(w: World, codes: seq<string>): World {
    WithRow(w, Saved(RowOf(w), codes)).(batch := codes, spent := multiset{}, writes := w.writes + 1)
  }

  function Apply(w: World, s: Step): World
    requires Enabled(w, s)
  {
    match s
    case Begin(id, typed) => w.(requests := w.requests[id := Ready(typed, 0)], begun := w.begun[id := w.writes])
    case Read(id) =>
      var r := w.requests[id];
      w.(requests := w.requests[id := Looked(w.enabled, w.blob, r.typed, r.attempt)])
    case Swap(id) =>
      var r := w.requests[id];
      var (row, committed) := SavedOver(RowOf(w), r.seen.serial, r.rest);
      var w' := WithRow(w, row).(requests := w.requests[id := Answered(r, committed)]);
      if committed
      then w'.(spent := w.spent + multiset{Normalize(r.typed)}, own := w.own + {id}, writes := w.writes + 1)
      else w'
    case Regenerate(codes) => Generated(w, codes)
    case Enroll(codes) => Generated(w, codes).(enabled := false)
    case Activate => w.(enabled := true)
    case Disable => Generated(w, []).(enabled := false)
  }

  predicate Init(w: World) {
    && w.blob == Blob(0, []) && w.serials == 1 && w.requests == map[] && w.begun == map[] && w.own == {}
    && w.batch == [] && w.spent == multiset{} && w.writes == 0
  }

  predicate IsRun(ws: seq<World>, ss: seq<Step>) {
    && |ws| == |ss| + 1
    && Init(ws[0])
    && forall i :: 0 <= i < |ss| ==> Enabled(ws[i], ss[i]) && ws[i + 1] == Apply(ws[i], ss[i])
  }

  /** Between attempts every miss so far was caused by some other commit; while a
      blob is held, its serial number says whether one more has landed since. */
  ghost predicate FairRequest(w: World, id: nat)
    requires id in w.requests
  {
    && id in w.begun
    && w.begun[id] <= w.writes
    && (id in w.own <==> w.requests[id].Session?)
    && match w.requests[id]
       case Ready(_, attempt) => attempt < MAX_RETRIES && w.begun[id] + attempt <= w.writes
       case Holding(typed, attempt, seen, rest) =>
         && attempt < MAX_RETRIES
         && seen.serial < w.serials
         && Consumed(seen.codes, typed) == Some(rest)
         && (seen.serial == w.blob.serial ==> seen == w.blob)
         && w.begun[id] + attempt <= w.writes
         && (seen.serial != w.blob.serial ==> w.begun[id] + attempt < w.writes)
       case TryLater => w.begun[id] + MAX_RETRIES <= w.writes
       case _ => true
  }

  ghost predicate Good(w: World) {
    && w.blob.serial < w.serials
    && multiset(w.blob.codes) + w.spent == multiset(w.batch)
    && w.own <= w.requests.Keys
    && forall id :: id in w.requests ==> FairRequest(w, id)
  }

  lemma StepKeepsCodes(w: World, s: Step)
    requires Good(w) && Enabled(w, s)
    ensures multiset(Apply(w, s).blob.codes) + Apply(w, s).spent == multiset(Apply(w, s).batch)
  {
    if s.Swap? && w.blob.serial == w.requests[s.id].seen.serial {
      var r := w.requests[s.id];
      assert FairRequest(w, s.id);
      ConsumedTakesOne(w.blob.codes, r.typed);
    }
  }

  lemma SwapKeepsRequests(w: World, swapped: nat, id: nat)
    requires Good(w) && Enabled(w, Swap(swapped)) && id in Apply(w, Swap(swapped)).requests
    ensures FairRequest(Apply(w, Swap(swapped)), id)
  {
    hide Consumed, Normalize;
    assert FairRequest(w, id);
    assert FairRequest(w, swapped);
  }

  lemma StepKeepsRequests(w: World, s: Step, id: nat)
    requires Good(w) && Enabled(w, s) && id in Apply(w, s).requests
    ensures FairRequest(Apply(w, s), id)
  {
    hide Consumed, Normalize;
    if s.Swap? {
      SwapKeepsRequests(w, s.id, id);
    } else if id in w.requests {
      assert FairRequest(w, id);
    }
  }

  lemma GoodStep(w: World, s: Step)
    requires Good(w) && Enabled(w, s)
    ensures Good(Apply(w, s))
  {
    StepKeepsCodes(w, s);
    forall id | id in Apply(w, s).requests {
      StepKeepsRequests(w, s, id);
    }
  }

  lemma {:induction false} RunIsGood(ws: seq<World>, ss: seq<Step>, i: nat)
    requires IsRun(ws, ss) && i < |ws|
    ensures Good(ws[i])
  {
    if i > 0 {
      RunIsGood(ws, ss, i - 1);
      GoodStep(ws[i - 1], ss[i - 1]);
    }
  }

  /** Conservation over any interleaving: what is stored and what was accepted
      since the last generation make up the generated batch. */
  lemma CodesAreConserved(ws: seq<World>, ss: seq<Step>, i: nat)
    requires IsRun(ws, ss) && i < |ws|
    ensures multiset(ws[i].blob.codes) + ws[i].spent == multiset(ws[i].batch)
  {
    RunIsGood(ws, ss, i);
  }

  /** Sessions granted for `code` by the steps from `i` to `j`. */
  function Sessions(ws: seq<World>, ss: seq<Step>, code: string, i: nat, j: nat): nat
    requires IsRun(ws, ss) && i <= j <= |ss|
    decreases j
  {
    if i == j then 0
    else
      Sessions(ws, ss, code, i, j - 1) + if Grants(ws[j - 1], ss[j - 1], code) then 1 else 0
  }

  /** The step ends a request for `code` in a session. */
  predicate Grants(w: World, s: Step, code: string)
    requires Enabled(w, s)
  {
    s.Swap? && Apply(w, s).requests[s.id].Session? && Normalize(w.requests[s.id].typed) == code
  }

  lemma StepSpends(w: World, s: Step, code: string)
    requires Enabled(w, s) && !Generates(s)
    ensures Apply(w, s).spent[code] == w.spent[code] + if Grants(w, s, code) then 1 else 0
    ensures Apply(w, s).batch == w.batch
  {
  }

  lemma {:induction false} SessionsAreSpent(ws: seq<World>, ss: seq<Step>, code: string, i: nat, j: nat)
    requires IsRun(ws, ss) && i <= j <= |ss|
    requires forall k :: i <= k < j ==> !Generates(ss[k])
    ensures ws[j].spent[code] == ws[i].spent[code] + Sessions(ws, ss, code, i, j)
    ensures ws[j].batch == ws[i].batch
    decreases j
  {
    hide Apply, Grants, Init;
    if i < j {
      SessionsAreSpent(ws, ss, code, i, j - 1);
      StepSpends(ws[j - 1], ss[j - 1], code);
    }
  }

  /** Between two generations a code opens at most as many sessions as the batch
      holds copies of it; with distinct codes that is at most one. */
  lemma EachCodeOpensOneSession(ws: seq<World>, ss: seq<Step>, code: string, i: nat, j: nat)
    requires IsRun(ws, ss) && i < j <= |ss| && Generates(ss[i])
    requires forall k :: i < k < j ==> !Generates(ss[k])
    ensures Sessions(ws, ss, code, i + 1, j) <= multiset(BatchOf(ss[i]))[code]
  {
    SessionsAreSpent(ws, ss, code, i + 1, j);
    CodesAreConserved(ws, ss, j);
  }

  /** A session means the request's own write was committed; a 503 means at
      least three other writes were committed while the request ran. */
  lemma OutcomesAreEarned(ws: seq<World>, ss: seq<Step>, i: nat, id: nat)
    requires IsRun(ws, ss) && i < |ws| && id in ws[i].requests
    ensures ws[i].requests[id].Session? <==> id in ws[i].own
    ensures ws[i].requests[id].TryLater? ==>
              id in ws[i].begun && id !in ws[i].own && ws[i].begun[id] + 3 <= ws[i].writes
  {
    RunIsGood(ws, ss, i);
    assert FairRequest(ws[i], id);
  }

  // ----- what a request comes to -----

  /** The typed code, in its canonical form, is stored. */
  predicate Listed(w: World, typed: string) {
    Normalize(typed) != "" && Normalize(typed) in w.blob.codes
  }

  /** A read leaves the request holding what is stored exactly when 2FA is on and
      the code is listed; otherwise the request is refused. */
  lemma ReadHoldsIff(w: World, id: nat)
    requires Enabled(w, Read(id))
    ensures var r, r' := w.requests[id], Apply(w, Read(id)).requests[id];
            && (w.enabled && Listed(w, r.typed)
                ==> r'.Holding? && r'.typed == r.typed && r'.attempt == r.attempt && r'.seen == w.blob
                    && multiset(r'.rest) + multiset{Normalize(r.typed)} == multiset(w.blob.codes))
            && (!(w.enabled && Listed(w, r.typed)) ==> r' == Invalid)
  {
    ConsumedTakesOne(w.blob.codes, w.requests[id].typed);
    hide Consumed, Normalize;
  }

  /** A write goes through exactly when nothing was written since the read. Then
      the request is a session; a loser tries again, up to the third attempt. */
  lemma SwapWinsIff(w: World, id: nat)
    requires Good(w) && Enabled(w, Swap(id))
    ensures var r, r' := w.requests[id], Apply(w, Swap(id)).requests[id];
            && (w.blob.serial == r.seen.serial ==>
                  r' == Session(r.typed, r.rest) && Apply(w, Swap(id)).blob.codes == r.rest)
            && (w.blob.serial != r.seen.serial ==>
                  && Apply(w, Swap(id)).blob == w.blob
                  && r' == if r.attempt < 2 then Ready(r.typed, r.attempt + 1) else TryLater)
  {
    assert FairRequest(w, id);
    hide Consumed, Normalize;
  }

  lemma StepAt(ws: seq<World>, ss: seq<Step>, i: nat)
    requires IsRun(ws, ss) && i < |ss|
    ensures |ws| == |ss| + 1 && Enabled(ws[i], ss[i]) && ws[i + 1] == Apply(ws[i], ss[i])
  {
  }

  /** A request changes only by its own steps. */
  lemma RequestStep(w: World, s: Step, id: nat)
    requires Enabled(w, s) && id in w.requests && s != Read(id) && s != Swap(id)
    ensures id in Apply(w, s).requests && Apply(w, s).requests[id] == w.requests[id]
  {
    hide Consumed, Normalize;
  }

  /** Unless something is written, the stored list stays the same. */
  lemma BlobStep(w: World, s: Step)
    requires Enabled(w, s)
    ensures Apply(w, s).writes >= w.writes
    ensures Apply(w, s).writes == w.writes ==> Apply(w, s).blob == w.blob
  {
    hide Consumed, Normalize;
  }

  lemma {:induction false} HeldUntil(ws: seq<World>, ss: seq<Step>, i: nat, j: nat, id: nat)
    requires IsRun(ws, ss) && i <= j < |ws| && id in ws[i].requests
    requires forall k :: i <= k < j ==> ss[k] != Read(id) && ss[k] != Swap(id)
    ensures |ws| == |ss| + 1 && id in ws[j].requests && ws[j].requests[id] == ws[i].requests[id]
    ensures ws[i].writes <= ws[j].writes && (ws[j].writes == ws[i].writes ==> ws[j].blob == ws[i].blob)
  {
    if i < j {
      HeldUntil(ws, ss, i, j - 1, id);
      StepAt(ws, ss, j - 1);
      RequestStep(ws[j - 1], ss[j - 1], id);
      BlobStep(ws[j - 1], ss[j - 1]);
      hide IsRun, Apply, Enabled;
    }
  }

  /** A listed code of a user with 2FA on, with nothing written between the read
      and the swap, opens a session. */
  lemma ListedCodeOpensASession(ws: seq<World>, ss: seq<Step>, i: nat, j: nat, id: nat)
    requires IsRun(ws, ss) && i < j < |ss| && ss[i] == Read(id) && ss[j] == Swap(id)
    requires forall k :: i < k < j ==> ss[k] != Read(id) && ss[k] != Swap(id)
    requires ws[j].writes == ws[i].writes
    requires id in ws[i].requests && ws[i].requests[id].Ready? && ws[i].enabled
    requires Listed(ws[i], ws[i].requests[id].typed)
    ensures id in ws[j + 1].requests && ws[j + 1].requests[id].Session?
    ensures ws[j + 1].requests[id].typed == ws[i].requests[id].typed
  {
    hide IsRun, Consumed, Normalize, Good, Listed;
    StepAt(ws, ss, i);
    StepAt(ws, ss, j);
    RunIsGood(ws, ss, j);
    ReadHoldsIff(ws[i], id);
    HeldUntil(ws, ss, i + 1, j, id);
    BlobStep(ws[i], ss[i]);
    SwapWinsIff(ws[j], id);
  }

  /** The request read a row with 2FA on and its code listed. */
  ghost predicate ReadWell(ws: seq<World>, ss: seq<Step>, i: nat, id: nat, typed: string)
    requires |ws| == |ss| + 1
  {
    exists k :: 0 <= k < i && k < |ss| && ss[k] == Read(id) && ws[k].enabled && Listed(ws[k], typed)
  }

  /** The request read a row with 2FA off or its code not listed. */
  ghost predicate ReadBadly(ws: seq<World>, ss: seq<Step>, i: nat, id: nat)
    requires |ws| == |ss| + 1
  {
    exists k :: 0 <= k < i && k < |ss| && ss[k] == Read(id) && id in ws[k].requests && ws[k].requests[id].Ready?
                && !(ws[k].enabled && Listed(ws[k], ws[k].requests[id].typed))
  }

  /** What a request has behind it. */
  ghost predicate Earned(ws: seq<World>, ss: seq<Step>, i: nat, id: nat, r: Request)
    requires |ws| == |ss| + 1
  {
    match r
    case Ready(_, _) => true
    case Holding(typed, _, _, _) => ReadWell(ws, ss, i, id, typed)
    case Session(typed, _) => ReadWell(ws, ss, i, id, typed)
    case TryLater => true
    case Invalid => ReadBadly(ws, ss, i, id)
  }

  lemma EarnedLater(ws: seq<World>, ss: seq<Step>, i: nat, id: nat, r: Request)
    requires |ws| == |ss| + 1 && Earned(ws, ss, i, id, r)
    ensures Earned(ws, ss, i + 1, id, r)
  {
    hide Listed;
  }

  lemma BornReady(w: World, s: Step, id: nat)
    requires Enabled(w, s) && id in Apply(w, s).requests && id !in w.requests
    ensures Apply(w, s).requests[id].Ready?
  {
    hide Consumed, Normalize;
  }

  /** A session, and a refusal, are earned: the row was read with 2FA on and the
      code listed, or with one of these missing. */
  lemma {:induction false} RequestsAreEarned(ws: seq<World>, ss: seq<Step>, i: nat, id: nat)
    requires IsRun(ws, ss) && i < |ws| && id in ws[i].requests
    ensures |ws| == |ss| + 1 && Earned(ws, ss, i, id, ws[i].requests[id])
  {
    RunStart(ws, ss);
    hide IsRun, Consumed, Normalize, Good, Listed, Apply, Enabled, ReadWell, ReadBadly;
    if i > 0 {
      var w, s := ws[i - 1], ss[i - 1];
      StepAt(ws, ss, i - 1);
      if id !in w.requests {
        BornReady(w, s, id);
      } else {
        RequestsAreEarned(ws, ss, i - 1, id);
        EarnedLater(ws, ss, i - 1, id, w.requests[id]);
        if s == Read(id) {
          EarnedByRead(ws, ss, i - 1, id);
        } else if s == Swap(id) {
          RunIsGood(ws, ss, i - 1);
          EarnedBySwap(ws, ss, i - 1, id);
        } else {
          RequestStep(w, s, id);
        }
      }
    }
  }

  lemma RunStart(ws: seq<World>, ss: seq<Step>)
    requires IsRun(ws, ss)
    ensures |ws| == |ss| + 1 && ws[0].requests == map[]
  {
  }

  lemma EarnedByRead(ws: seq<World>, ss: seq<Step>, i: nat, id: nat)
    requires |ws| == |ss| + 1 && i < |ss| && ss[i] == Read(id) && Enabled(ws[i], ss[i])
    requires ws[i + 1] == Apply(ws[i], ss[i])
    ensures id in ws[i + 1].requests && Earned(ws, ss, i + 1, id, ws[i + 1].requests[id])
  {
    ReadHoldsIff(ws[i], id);
    hide Consumed, Normalize, Listed, Looked;
  }

  lemma EarnedBySwap(ws: seq<World>, ss: seq<Step>, i: nat, id: nat)
    requires |ws| == |ss| + 1 && i < |ss| && ss[i] == Swap(id) && Enabled(ws[i], ss[i])
    requires ws[i + 1] == Apply(ws[i], ss[i])
    requires Good(ws[i]) && Earned(ws, ss, i + 1, id, ws[i].requests[id])
    ensures id in ws[i + 1].requests && Earned(ws, ss, i + 1, id, ws[i + 1].requests[id])
  {
    SwapWinsIff(ws[i], id);
    hide Consumed, Normalize, Listed, ReadWell, ReadBadly, Good;
  }

  // ----- the canonical form -----

  predicate Plain(s: string) {
    forall i :: 0 <= i < |s| ==> s[i] != '-' && !Blank(s[i])
  }

  lemma {:induction false} PlainStays(s: string, rest: string)
    requires Plain(s)
    ensures Without(s + rest, SEPARATOR) == s + Without(rest, SEPARATOR)
  {
    if s == "" {
      assert s + rest == rest;
    } else {
      assert (s + rest)[1..] == s[1..] + rest && (s + rest)[0] == s[0];
      PlainStays(s[1..], rest);
      assert s == [s[0]] + s[1..];
    }
  }

  lemma SeparatorGoes(sep: string, rest: string)
    requires sep == "" || sep == "-" || sep == " "
    ensures Without(sep + rest, SEPARATOR) == Without(rest, SEPARATOR)
  {
    if sep == "" {
      assert sep + rest == rest;
    } else {
      assert (sep + rest)[1..] == rest;
    }
  }

  /** Both halves of a code may be typed in either case, with a dash, a blank or
      nothing between them and blanks around: the canonical form has lower case
      and the dash. */
  lemma TypedForms(front: string, x: string, sep: string, y: string, back: string)
    requires (forall i :: 0 <= i < |front| ==> Blank(front[i])) && (forall i :: 0 <= i < |back| ==> Blank(back[i]))
    requires Plain(x) && Plain(y) && |x| == 4 == |y| && (sep == "" || sep == "-" || sep == " ")
    ensures Normalize(front + (x + sep + y) + back) == Lower(x) + "-" + Lower(y)
  {
    var mid, low := x + sep + y, Lower(x) + (sep + Lower(y));
    assert mid[0] == x[0] && mid[|mid| - 1] == y[3];
    TrimmedMiddle(front, mid, back);
    assert Lower(sep) == sep;
    assert Lower(mid) == low;
    LowerStaysPlain(x);
    LowerStaysPlain(y);
    PlainStays(Lower(x), sep + Lower(y));
    SeparatorGoes(sep, Lower(y));
    assert Lower(y) + "" == Lower(y);
    PlainStays(Lower(y), "");
    var s := Lower(x) + Lower(y);
    assert s[..4] == Lower(x) && s[4..] == Lower(y);
  }

  lemma LowerStaysPlain(s: string)
    requires Plain(s)
    ensures Plain(Lower(s))
  {
  }
}
