/**
 * The bot's presence: the activity type chosen by `/bot setstatus` and the
 * `{server_count}` substitution of `updateStatus` (server/bot.ts).
 */
module StatusText {
  import opened Wrappers

  /** The three activity types the bot uses (discord.js `ActivityType`). */
  datatype ActivityType = Playing | Streaming | Watching

  /** The `type` option of `setstatus` mapped to an activity type; any other value plays. */
  function ActivityFor(kind: string): (t: ActivityType)
    ensures t == Watching <==> kind == "WATCHING"
    ensures t == Streaming <==> kind == "STREAMING"
    ensures t == Playing <==> kind != "WATCHING" && kind != "STREAMING"
  {
    if kind == "STREAMING" then Streaming
    else if kind == "WATCHING" then Watching
    else Playing
  }

  /** `pat` starts at position `i` of `s`. */
  predicate OccursAt(s: string, pat: string, i: nat) {
    i + |pat| <= |s| && s[i..i + |pat|] == pat
  }

  /** The first position at or after `from` where `pat` occurs in `s`. */
  function FindFrom(s: string, pat: string, from: nat): (r: Option<nat>)
    requires from <= |s| + 1
    ensures r.Some? ==> from <= r.value && OccursAt(s, pat, r.value)
    ensures forall i :: from <= i && OccursAt(s, pat, i) ==> r.Some? && r.value <= i
    decreases |s| + 1 - from
  {
    if from + |pat| > |s| then None
    else if OccursAt(s, pat, from) then Some(from)
    else FindFrom(s, pat, from + 1)
  }

  /**
   * `s.replace(pat, rep)` with a string pattern: only the first occurrence of
   * `pat` is replaced; without an occurrence `s` is returned unchanged. The
   * replacement is inserted literally (it never holds a `$` here).
   */
  function ReplaceFirst(s: string, pat: string, rep: string): (r: string)
    ensures (forall i: nat :: !OccursAt(s, pat, i)) ==> r == s
    ensures forall i: nat ::
      OccursAt(s, pat, i) && (forall j: nat :: j < i ==> !OccursAt(s, pat, j)) ==>
        r == s[..i] + rep + s[i + |pat|..]
  {
    match FindFrom(s, pat, 0)
    case None => s
    case Some(i) => s[..i] + rep + s[i + |pat|..]
  }

  function DigitChar(d: nat): char
    requires d < 10
  {
    ('0' as int + d) as char
  }

  predicate IsDigit(c: char) {
    '0' <= c <= '9'
  }

  /** `n.toString()` for a count: its decimal digits, without leading zeros. */
  function Decimal(n: nat): (s: string)
    ensures |s| >= 1
    ensures forall i :: 0 <= i < |s| ==> IsDigit(s[i])
    ensures |s| > 1 ==> s[0] != '0'
    decreases n
  {
    if n < 10 then [DigitChar(n)] else Decimal(n / 10) + [DigitChar(n % 10)]
  }

  /** The number a string of decimal digits denotes. */
  function DecimalValue(s: string): nat
    requires forall i :: 0 <= i < |s| ==> IsDigit(s[i])
  {
    if s == [] then 0
    else
      assert IsDigit(s[|s| - 1]);
      DecimalValue(s[..|s| - 1]) * 10 + (s[|s| - 1] as int - '0' as int)
  }

  /** Rendering a count in decimal loses nothing: reading the digits back gives the count. */
  lemma {:induction false} DecimalRoundTrip(n: nat)
    ensures DecimalValue(Decimal(n)) == n
  {
    if n >= 10 {
      DecimalRoundTrip(n / 10);
      var s := Decimal(n);
      assert s[..|s| - 1] == Decimal(n / 10);
    }
  }

  const Placeholder := "{server_count}"

  /** The presence text of `updateStatus`: the first `{server_count}` replaced by the guild count. */
  function StatusLine(text: string, guildCount: nat): (r: string)
    ensures (forall i: nat :: !OccursAt(text, Placeholder, i)) ==> r == text
    ensures forall i: nat ::
      OccursAt(text, Placeholder, i) && (forall j: nat :: j < i ==> !OccursAt(text, Placeholder, j)) ==>
        r == text[..i] + Decimal(guildCount) + text[i + |Placeholder|..]
  {
    ReplaceFirst(text, Placeholder, Decimal(guildCount))
  }

  /** The status text the bot starts with. */
  const InitialStatusText := "GERE {server_count} serveurs"

  /** With the initial text the presence reads "GERE <count> serveurs". */
  lemma InitialStatusLine(guildCount: nat)
    ensures StatusLine(InitialStatusText, guildCount) == "GERE " + Decimal(guildCount) + " serveurs"
  {
    var t, head, tail := InitialStatusText, "GERE ", " serveurs";
    assert t == head + Placeholder + tail;
    assert t[..5] == head && t[5..5 + |Placeholder|] == Placeholder && t[5 + |Placeholder|..] == tail;
    forall j: nat | j < 5 ensures !OccursAt(t, Placeholder, j) {
      assert t[j..j + |Placeholder|][0] == head[j] != Placeholder[0];
    }
  }
}
