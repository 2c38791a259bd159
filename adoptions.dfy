/*
 * Mutation dbv_110 (bin/dbsv-update.php:419-467) moves the adoption history
 * out of `logentries` into the new table `cache_adoptions`. Each log text is
 * matched against
 *   /Cache (\d+) has changed the owner from userid (\d+) to (\d+) by (\d+)/
 * and groups 2 and 3 become the previous and the new owner; the first text
 * that does not match drops the new table and ends the script.
 */
module Adoptions {
  import opened Schema

  predicate IsDigit(c: char) {
    '0' <= c <= '9'
  }

  predicate AllDigits(s: string) {
    forall i :: 0 <= i < |s| ==> IsDigit(s[i])
  }

  /** Where the run of digits that starts at `p` ends. */
  function DigitsEnd(s: string, p: nat): (e: nat)
    requires p <= |s|
    ensures p <= e <= |s|
    ensures forall i :: p <= i < e ==> IsDigit(s[i])
    ensures e == |s| || !IsDigit(s[e])
    decreases |s| - p
  {
    if p < |s| && IsDigit(s[p]) then DigitsEnd(s, p + 1) else p
  }

  /** The value of a decimal numeral. */
  function DigitsValue(ds: string): nat
    requires AllDigits(ds)
  {
    if ds == [] then 0
    else DigitsValue(ds[..|ds| - 1]) * 10 + (ds[|ds| - 1] as int - '0' as int)
  }

  /** `\d+` at position `p`: the value of the longest digit run there, and the
      position after it. A shorter run never helps the rest of this pattern,
      because every later literal starts with a space. */
  function Number(s: string, p: nat): Option<(nat, nat)>
    requires p <= |s|
  {
    var e := DigitsEnd(s, p);
    if e == p then None else Some((DigitsValue(s[p..e]), e))
  }

  predicate LiteralAt(s: string, p: nat, w: string) {
    p + |w| <= |s| && s[p..p + |w|] == w
  }

  /** The literal parts of the pattern, each followed by a `(\d+)` group. */
  const Pattern: seq<string> :=
    ["Cache ", " has changed the owner from userid ", " to ", " by "]

  /** The literal `lit` at `p` followed by a number: its value and the
      position after it. */
  function Field(s: string, p: nat, lit: string): (f: Option<(nat, nat)>)
    requires p <= |s|
    ensures f.Some? ==> p + |lit| < f.value.1 <= |s|
  {
    if !LiteralAt(s, p, lit) then None else Number(s, p + |lit|)
  }

  /** The literals `lits`, each followed by a number, matched starting exactly
      at `p`: the numbers' values. */
  function Groups(s: string, p: nat, lits: seq<string>): (g: Option<seq<nat>>)
    requires p <= |s|
    ensures g.Some? ==> |g.value| == |lits|
    decreases |lits|
  {
    if lits == [] then Some([])
    else
      match Field(s, p, lits[0])
      case None => None
      case Some((v, q)) =>
        match Groups(s, q, lits[1..])
        case None => None
        case Some(vs) => Some([v] + vs)
  }

  /** The leftmost match at or after `p` of the literals `lits`, each
      followed by a number: the numbers' values. */
  function MatchFrom(s: string, p: nat, lits: seq<string>): (g: Option<seq<nat>>)
    requires p <= |s|
    ensures g.Some? ==> |g.value| == |lits|
    decreases |s| - p
  {
    match Groups(s, p, lits)
    case Some(g) => Some(g)
    case None => if p == |s| then None else MatchFrom(s, p + 1, lits)
  }

  /** The pattern matches at no position from `p` up to, not including, `q`. */
  predicate NoneBetween(s: string, lits: seq<string>, p: nat, q: nat) {
    forall r :: p <= r < q && r <= |s| ==> Groups(s, r, lits).None?
  }

  /** The result is the match at the leftmost position `q` where the pattern
      matches; there is none exactly when the pattern matches nowhere. */
  lemma {:induction false} MatchFromIsLeftmost(s: string, p: nat, lits: seq<string>) returns (q: nat)
    requires p <= |s|
    ensures MatchFrom(s, p, lits).Some? ==>
      p <= q <= |s| && Groups(s, q, lits) == MatchFrom(s, p, lits) && NoneBetween(s, lits, p, q)
    ensures MatchFrom(s, p, lits).None? ==> NoneBetween(s, lits, p, |s| + 1)
    decreases |s| - p
  {
    q := p;
    var g := Groups(s, p, lits);
    if g.None? && p < |s| {
      q := MatchFromIsLeftmost(s, p + 1, lits);
      assert MatchFrom(s, p, lits) == MatchFrom(s, p + 1, lits);
    } else {
      assert MatchFrom(s, p, lits) == g;
    }
  }

  /** The four groups of one match. */
  datatype AdoptionMatch = AdoptionMatch(cacheId: nat, fromUser: nat, toUser: nat, byUser: nat)

  /** preg_match on a log text: the groups of the leftmost match, if any. */
  function ParseAdoptionLog(text: string): Option<AdoptionMatch> {
    match MatchFrom(text, 0, Pattern)
    case None => None
    case Some(g) => Some(AdoptionMatch(g[0], g[1], g[2], g[3]))
  }

  function DigitChar(d: nat): char
    requires d < 10
  {
    ('0' as int + d) as char
  }

  /** The decimal numeral of `n`, without leading zeros. */
  function NatToString(n: nat): (r: string)
    ensures |r| >= 1 && AllDigits(r)
  {
    if n < 10 then [DigitChar(n)] else NatToString(n / 10) + [DigitChar(n % 10)]
  }

  lemma {:induction false} NatToStringValue(n: nat)
    ensures DigitsValue(NatToString(n)) == n
  {
    if n >= 10 {
      var r := NatToString(n);
      NatToStringValue(n / 10);
      assert r[..|r| - 1] == NatToString(n / 10);
    }
  }

  lemma {:induction false} DigitsEndExact(s: string, p: nat, e: nat)
    requires p <= e <= |s|
    requires forall i :: p <= i < e ==> IsDigit(s[i])
    requires e == |s| || !IsDigit(s[e])
    ensures DigitsEnd(s, p) == e
    decreases e - p
  {
    if p < e {
      DigitsEndExact(s, p + 1, e);
    }
  }

  /** The decimal numeral of `n` at `p`, followed by a non-digit or by the
      end of the text, is read back as `n`. */
  lemma NumberAt(s: string, p: nat, n: nat)
    requires p + |NatToString(n)| <= |s|
    requires s[p..p + |NatToString(n)|] == NatToString(n)
    requires p + |NatToString(n)| == |s| || !IsDigit(s[p + |NatToString(n)|])
    ensures Number(s, p) == Some((n, p + |NatToString(n)|))
  {
    var w := NatToString(n);
    var e := p + |w|;
    forall i | p <= i < e ensures IsDigit(s[i]) {
      assert s[i] == s[p..e][i - p];
    }
    DigitsEndExact(s, p, e);
    NatToStringValue(n);
  }

  /** A slice that reads `a + b` reads `a` and then `b`. */
  lemma SliceParts(s: string, p: nat, a: string, b: string)
    requires p + |a| + |b| <= |s| && s[p..p + |a| + |b|] == a + b
    ensures s[p..p + |a|] == a && s[p + |a|..p + |a| + |b|] == b
  {
    forall i | 0 <= i < |a| ensures s[p..p + |a|][i] == a[i] {
      assert s[p + i] == s[p..p + |a| + |b|][i];
    }
    forall i | 0 <= i < |b| ensures s[p + |a|..p + |a| + |b|][i] == b[i] {
      assert s[p + |a| + i] == s[p..p + |a| + |b|][|a| + i];
    }
  }

  /** Each literal followed by the decimal numeral of its value. */
  function Render(lits: seq<string>, vals: seq<nat>): string
    requires |lits| == |vals|
  {
    if lits == [] then [] else lits[0] + NatToString(vals[0]) + Render(lits[1..], vals[1..])
  }

  /** Every literal starts with a non-digit, so no number runs into it. */
  predicate DigitFreeStarts(lits: seq<string>) {
    forall i :: 0 <= i < |lits| ==> |lits[i]| > 0 && !IsDigit(lits[i][0])
  }

  /** `s` holds the rendering of `lits` and `vals` at `p`, followed by a
      non-digit or by the end of the text. */
  predicate RenderedAt(s: string, p: nat, lits: seq<string>, vals: seq<nat>)
    requires |lits| == |vals|
  {
    var r := Render(lits, vals);
    p + |r| <= |s| && s[p..p + |r|] == r && (p + |r| == |s| || !IsDigit(s[p + |r|]))
  }

  /** A rendering starts with a non-digit, or is empty and ends the text
      or is followed by a non-digit. */
  lemma RenderedStart(s: string, q: nat, lits: seq<string>, vals: seq<nat>)
    requires |lits| == |vals|
    requires DigitFreeStarts(lits) && RenderedAt(s, q, lits, vals)
    ensures q == |s| || !IsDigit(s[q])
  {
    var rest := Render(lits, vals);
    if rest != [] {
      assert rest[0] == lits[0][0];
      assert s[q] == s[q..q + |rest|][0];
    }
  }

  /** A rendering at `p` is its first literal, then the numeral of its first
      value, then the rendering of the rest. */
  lemma RenderedParts(s: string, p: nat, lits: seq<string>, vals: seq<nat>)
    requires |lits| == |vals| && lits != []
    requires RenderedAt(s, p, lits, vals)
    ensures LiteralAt(s, p, lits[0])
    ensures p + |lits[0]| + |NatToString(vals[0])| <= |s|
    ensures s[p + |lits[0]|..p + |lits[0]| + |NatToString(vals[0])|] == NatToString(vals[0])
    ensures RenderedAt(s, p + |lits[0]| + |NatToString(vals[0])|, lits[1..], vals[1..])
  {
    var a := lits[0];
    var n := NatToString(vals[0]);
    var rest := Render(lits[1..], vals[1..]);
    assert Render(lits, vals) == (a + n) + rest;
    SliceParts(s, p, a + n, rest);
    SliceParts(s, p, a, n);
  }

  /** The first literal and number of a rendering are read back, and the rest
      of the rendering follows them. */
  lemma RenderedStep(s: string, p: nat, lits: seq<string>, vals: seq<nat>)
    requires |lits| == |vals| && lits != []
    requires DigitFreeStarts(lits) && RenderedAt(s, p, lits, vals)
    ensures p + |lits[0]| + |NatToString(vals[0])| <= |s|
    ensures Field(s, p, lits[0]) == Some((vals[0], (p + |lits[0]| + |NatToString(vals[0])|) as nat))
    ensures DigitFreeStarts(lits[1..])
    ensures RenderedAt(s, p + |lits[0]| + |NatToString(vals[0])|, lits[1..], vals[1..])
  {
    RenderedParts(s, p, lits, vals);
    var q := p + |lits[0]| + |NatToString(vals[0])|;
    assert DigitFreeStarts(lits[1..]) by {
      forall i | 0 <= i < |lits[1..]| ensures |lits[1..][i]| > 0 && !IsDigit(lits[1..][i][0]) {
        assert lits[1..][i] == lits[i + 1];
      }
    }
    RenderedStart(s, q, lits[1..], vals[1..]);
    NumberAt(s, p + |lits[0]|, vals[0]);
  }

  /** One literal and number read in front of the rest of the groups. */
  lemma GroupsCons(s: string, p: nat, lits: seq<string>, v: nat, q: nat, vs: seq<nat>)
    requires p <= |s| && lits != []
    requires Field(s, p, lits[0]) == Some((v, q))
    requires Groups(s, q, lits[1..]) == Some(vs)
    ensures Groups(s, p, lits) == Some([v] + vs)
  {
  }

  /** The numbers of a rendered text are read back, provided every literal
      starts with a non-digit and so does what follows the last number. */
  lemma {:induction false} GroupsRender(s: string, p: nat, lits: seq<string>, vals: seq<nat>)
    requires |lits| == |vals|
    requires DigitFreeStarts(lits) && RenderedAt(s, p, lits, vals)
    ensures Groups(s, p, lits) == Some(vals)
    decreases |lits|
  {
    if lits != [] {
      RenderedStep(s, p, lits, vals);
      var q: nat := p + |lits[0]| + |NatToString(vals[0])|;
      GroupsRender(s, q, lits[1..], vals[1..]);
      GroupsCons(s, p, lits, vals[0], q, vals[1..]);
      assert [vals[0]] + vals[1..] == vals;
    }
  }

  /** The log text the application writes for an owner change. */
  function RenderAdoptionLog(m: AdoptionMatch): string {
    Render(Pattern, [m.cacheId, m.fromUser, m.toUser, m.byUser])
  }

  /** Parsing the text written for an owner change gives back its four numbers. */
  lemma ParseRender(m: AdoptionMatch)
    ensures ParseAdoptionLog(RenderAdoptionLog(m)) == Some(m)
  {
    var s := RenderAdoptionLog(m);
    var vals := [m.cacheId, m.fromUser, m.toUser, m.byUser];
    assert s[0..|s|] == s;
    assert RenderedAt(s, 0, Pattern, vals);
    assert DigitFreeStarts(Pattern) by {
      assert Pattern[0][0] == 'C' && Pattern[1][0] == ' ' && Pattern[2][0] == ' ' && Pattern[3][0] == ' ';
    }
    GroupsRender(s, 0, Pattern, vals);
    assert MatchFrom(s, 0, Pattern) == Some(vals);
  }

  /** One row of `logentries` the query of dbv_110 returns. */
  datatype LogEntry = LogEntry(id: nat, dateCreated: string, objectId: nat, text: string)

  /** One row of `cache_adoptions`. */
  datatype Adoption = Adoption(cacheId: nat, date: string, fromUser: nat, toUser: nat)

  /** What the backfill leaves: every row inserted, or the ID of the entry
      that stopped it (the table is then dropped). */
  datatype Backfill = Inserted(rows: seq<Adoption>) | Aborted(logId: nat)

  /** The row built for an entry: the cache comes from `objectid1`, the date
      from `date_created`, the owners from groups 2 and 3. */
  function AdoptionRow(e: LogEntry, m: AdoptionMatch): Adoption {
    Adoption(e.objectId, e.dateCreated, m.fromUser, m.toUser)
  }

  function BackfillLog(entries: seq<LogEntry>): Backfill {
    if entries == [] then Inserted([])
    else
      match ParseAdoptionLog(entries[0].text)
      case None => Aborted(entries[0].id)
      case Some(m) =>
        match BackfillLog(entries[1..])
        case Inserted(rows) => Inserted([AdoptionRow(entries[0], m)] + rows)
        case Aborted(id) => Aborted(id)
  }

  /** All or nothing: either every entry parses and yields its row, in order,
      or the backfill stops at the first entry that does not parse. */
  lemma {:induction false} BackfillAllOrAbort(entries: seq<LogEntry>)
    ensures BackfillLog(entries).Inserted? ==>
      |BackfillLog(entries).rows| == |entries| &&
      forall i :: 0 <= i < |entries| ==>
        ParseAdoptionLog(entries[i].text).Some? &&
        BackfillLog(entries).rows[i] == AdoptionRow(entries[i], ParseAdoptionLog(entries[i].text).value)
    ensures BackfillLog(entries).Aborted? ==>
      exists k :: 0 <= k < |entries| &&
        ParseAdoptionLog(entries[k].text).None? && entries[k].id == BackfillLog(entries).logId &&
        forall i :: 0 <= i < k ==> ParseAdoptionLog(entries[i].text).Some?
  {
    if entries != [] {
      BackfillAllOrAbort(entries[1..]);
      var r := BackfillLog(entries);
      if ParseAdoptionLog(entries[0].text).Some? {
        var rest := BackfillLog(entries[1..]);
        if r.Inserted? {
          forall i | 0 <= i < |entries|
            ensures ParseAdoptionLog(entries[i].text).Some? &&
                    r.rows[i] == AdoptionRow(entries[i], ParseAdoptionLog(entries[i].text).value)
          {
            if i > 0 {
              assert entries[i] == entries[1..][i - 1];
              assert r.rows[i] == rest.rows[i - 1];
            }
          }
        } else {
          var k :| 0 <= k < |entries[1..]| &&
            ParseAdoptionLog(entries[1..][k].text).None? && entries[1..][k].id == rest.logId &&
            forall i :: 0 <= i < k ==> ParseAdoptionLog(entries[1..][i].text).Some?;
          forall i | 0 <= i < k + 1 ensures ParseAdoptionLog(entries[i].text).Some? {
            if i > 0 {
              assert entries[i] == entries[1..][i - 1];
            }
          }
          assert entries[k + 1] == entries[1..][k];
        }
      }
    }
  }

  /** `rows` already inserted in front of what the rest of the backfill does. */
  function After(rows: seq<Adoption>, rest: Backfill): Backfill {
    match rest
    case Inserted(more) => Inserted(rows + more)
    case Aborted(id) => Aborted(id)
  }

  /** The insert loop of dbv_110 over the entries in the query's order
      (`date_created`, `id`). */
  method MigrateAdoptionLog(entries: seq<LogEntry>) returns (r: Backfill)
    ensures r == BackfillLog(entries)
  {
    var rows: seq<Adoption> := [];
    var i := 0;
    while i < |entries|
      invariant 0 <= i <= |entries|
      invariant BackfillLog(entries) == After(rows, BackfillLog(entries[i..]))
    {
      var m := ParseAdoptionLog(entries[i].text);
      assert entries[i..][0] == entries[i] && entries[i..][1..] == entries[i + 1..];
      if m.None? {
        // the table is dropped and the script dies
        return Aborted(entries[i].id);
      }
      var row := AdoptionRow(entries[i], m.value);
      if BackfillLog(entries[i + 1..]).Inserted? {
        var more := BackfillLog(entries[i + 1..]).rows;
        assert rows + ([row] + more) == rows + [row] + more;
      }
      rows := rows + [row];
      i := i + 1;
    }
    assert entries[i..] == [];
    assert rows + [] == rows;
    return Inserted(rows);
  }
}
