/** The emoji and message tables of the bot's configuration: lookup by name and
    the grouping of indexed messages `<key>_<n>_<field>` into one dictionary per
    index. */
module MessageConfig {
  import opened Common

  datatype EmojiEntry = EmojiEntry(name: string, emoji: string)
  datatype MessageEntry = MessageEntry(name: string, text: string)

  /** The `ValueError` a lookup raises for a name that is not configured. */
  datatype ConfigError = EmojiNotFound(key: string) | MessageNotFound(key: string)

  /** `EmojiConfig[key]`: the emoji of the first entry named `key`. */
  function EmojiLookup(emojis: seq<EmojiEntry>, key: string): (r: Result<string, ConfigError>)
    ensures r.Ok? <==> exists i :: 0 <= i < |emojis| && emojis[i].name == key
    ensures r.Ok? ==> exists i :: 0 <= i < |emojis| && emojis[i].name == key && r.value == emojis[i].emoji
                                  && forall j :: 0 <= j < i ==> emojis[j].name != key
    ensures r.Err? ==> r.error == EmojiNotFound(key)
  {
    if emojis == [] then Err(EmojiNotFound(key))
    else if emojis[0].name == key then Ok(emojis[0].emoji)
    else
      var r := EmojiLookup(emojis[1..], key);
      assert forall i :: 1 <= i < |emojis| ==> emojis[i] == emojis[1..][i - 1];
      r
  }

  /** `MessageConfig[key]`: the text of the first entry named `key`. */
  function MessageLookup(messages: seq<MessageEntry>, key: string): (r: Result<string, ConfigError>)
    ensures r.Ok? <==> exists i :: 0 <= i < |messages| && messages[i].name == key
    ensures r.Ok? ==> exists i :: 0 <= i < |messages| && messages[i].name == key && r.value == messages[i].text
                                  && forall j :: 0 <= j < i ==> messages[j].name != key
    ensures r.Err? ==> r.error == MessageNotFound(key)
  {
    if messages == [] then Err(MessageNotFound(key))
    else if messages[0].name == key then Ok(messages[0].text)
    else
      var r := MessageLookup(messages[1..], key);
      assert forall i :: 1 <= i < |messages| ==> messages[i] == messages[1..][i - 1];
      r
  }

  /** The two tables of `config/message.yaml` as the rest of the bot sees them.
      The `get_emoji` and `get_message` accessors the bot calls are not
      defined in the configuration classes; they are taken to be the lookups
      above on these tables. */
  datatype MessageTables = MessageTables(emojis: seq<EmojiEntry>, messages: seq<MessageEntry>)

  function GetEmoji(t: MessageTables, key: string): Result<string, ConfigError> {
    EmojiLookup(t.emojis, key)
  }

  function GetMessage(t: MessageTables, key: string): Result<string, ConfigError> {
    MessageLookup(t.messages, key)
  }

  predicate IsDigit(c: char) {
    '0' <= c <= '9'
  }

  /** The longest prefix of `s` made of digits. */
  function DigitRun(s: string): (d: string)
    ensures d <= s
    ensures forall i :: 0 <= i < |d| ==> IsDigit(d[i])
    ensures |d| == |s| || !IsDigit(s[|d|])
  {
    if s != [] && IsDigit(s[0]) then [s[0]] + DigitRun(s[1..]) else []
  }

  /** The shape `<key>_<digits>_<field>` that the pattern `^{key}_(\d+)_(.+)$`
      accepts under `fullmatch`: one or more digits, then a non-empty field
      without a line break. */
  ghost predicate IsIndexedName(key: string, name: string, idx: string, field: string) {
    && name == key + "_" + idx + "_" + field
    && |idx| > 0 && (forall i :: 0 <= i < |idx| ==> IsDigit(idx[i]))
    && |field| > 0 && '\n' !in field
  }

  /** The regular-expression match of `get_message_dicts`: the index string and
      the field name of an indexed message name, or nothing. */
  function MatchIndexed(key: string, name: string): (r: Option<(string, string)>)
    ensures r.Some? ==> IsIndexedName(key, name, r.value.0, r.value.1)
  {
    var n := |key| + 1;
    if |name| <= n || name[..|key|] != key || name[|key|] != '_' then None
    else
      var tail := name[n..];
      var idx := DigitRun(tail);
      if |idx| == 0 || |tail| <= |idx| + 1 || tail[|idx|] != '_' then None
      else
        var field := tail[|idx| + 1..];
        if '\n' in field then None
        else
          assert name == key + "_" + tail;
          assert tail == idx + "_" + field;
          Some((idx, field))
  }

  /** Every name of the indexed shape is matched, with its own index and field:
      the match and the shape are the same thing. */
  lemma MatchIndexedComplete(key: string, name: string, idx: string, field: string)
    requires IsIndexedName(key, name, idx, field)
    ensures MatchIndexed(key, name) == Some((idx, field))
  {
    var n := |key| + 1;
    var tail := name[n..];
    assert name[..|key|] == key;
    assert tail == idx + "_" + field;
    DigitRunOfIndexed(idx, field);
  }

  lemma {:induction false} DigitRunOfIndexed(idx: string, field: string)
    requires forall i :: 0 <= i < |idx| ==> IsDigit(idx[i])
    ensures DigitRun(idx + "_" + field) == idx
  {
    if idx != [] {
      assert (idx + "_" + field)[1..] == idx[1..] + "_" + field;
      DigitRunOfIndexed(idx[1..], field);
    }
  }

  /** The `defaultdict` after the first messages: one dictionary per index
      string, field names to message text, a later message overwriting an
      earlier one with the same field. */
  function Grouped(messages: seq<MessageEntry>, key: string): map<string, map<string, string>>
  {
    if messages == [] then map[]
    else
      var g := Grouped(messages[..|messages| - 1], key);
      var m := messages[|messages| - 1];
      match MatchIndexed(key, m.name)
      case None => g
      case Some((idx, field)) =>
        g[idx := (if idx in g then g[idx] else map[])[field := m.text]]
  }

  /** The index strings in the order the `defaultdict` first saw them. */
  function IndexOrder(messages: seq<MessageEntry>, key: string): seq<string>
  {
    if messages == [] then []
    else
      var order := IndexOrder(messages[..|messages| - 1], key);
      match MatchIndexed(key, messages[|messages| - 1].name)
      case None => order
      case Some((idx, _)) => if idx in order then order else order + [idx]
  }

  /** The index strings are exactly the keys of the grouped dictionaries, each
      once. */
  lemma {:induction false} IndexOrderIsKeys(messages: seq<MessageEntry>, key: string)
    ensures NoDuplicates(IndexOrder(messages, key))
    ensures forall idx :: idx in IndexOrder(messages, key) <==> idx in Grouped(messages, key)
  {
    if messages != [] {
      IndexOrderIsKeys(messages[..|messages| - 1], key);
    }
  }

  /** Python's `<` on strings: code-point lexicographic order, a proper prefix
      coming first (so "10" < "2"). */
  predicate StrLess(a: string, b: string)
    decreases |a|
  {
    if a == [] then b != []
    else if b == [] then false
    else if a[0] != b[0] then a[0] < b[0]
    else StrLess(a[1..], b[1..])
  }

  lemma {:induction false} StrLessIrreflexive(a: string)
    ensures !StrLess(a, a)
  {
    if a != [] {
      StrLessIrreflexive(a[1..]);
    }
  }

  lemma {:induction false} StrLessTransitive(a: string, b: string, c: string)
    requires StrLess(a, b) && StrLess(b, c)
    ensures StrLess(a, c)
    decreases |a|
  {
    if a != [] && b != [] && c != [] && a[0] == b[0] && b[0] == c[0] {
      StrLessTransitive(a[1..], b[1..], c[1..]);
    }
  }

  lemma {:induction false} StrLessTotal(a: string, b: string)
    requires a != b
    ensures StrLess(a, b) || StrLess(b, a)
    decreases |a|
  {
    if a != [] && b != [] && a[0] == b[0] {
      assert a == [a[0]] + a[1..] && b == [b[0]] + b[1..];
      StrLessTotal(a[1..], b[1..]);
    }
  }

  predicate StrictlySorted(s: seq<string>) {
    forall i, j :: 0 <= i < j < |s| ==> StrLess(s[i], s[j])
  }

  /** Inserts `x` into its place in an ascending sequence. */
  function Insert(x: string, s: seq<string>): seq<string>
  {
    if s == [] || StrLess(x, s[0]) then [x] + s else [s[0]] + Insert(x, s[1..])
  }

  /** Python's `sorted` on a list of distinct strings, as an insertion sort. */
  function SortStrings(s: seq<string>): seq<string>
  {
    if s == [] then [] else Insert(s[0], SortStrings(s[1..]))
  }

  /** Putting a string below all of a sorted sequence in front keeps it sorted. */
  lemma SortedCons(h: string, t: seq<string>)
    requires StrictlySorted(t) && forall k :: 0 <= k < |t| ==> StrLess(h, t[k])
    ensures StrictlySorted([h] + t)
  {
    var u := [h] + t;
    forall i, j | 0 <= i < j < |u|
      ensures StrLess(u[i], u[j])
    {
      assert u[j] == t[j - 1];
      if i > 0 {
        assert u[i] == t[i - 1];
      }
    }
  }

  lemma {:induction false} InsertSorted(x: string, s: seq<string>)
    requires StrictlySorted(s) && x !in s
    ensures StrictlySorted(Insert(x, s))
    ensures multiset(Insert(x, s)) == multiset(s) + multiset{x}
  {
    if s == [] || StrLess(x, s[0]) {
      forall j | 0 <= j < |s| ensures StrLess(x, s[j]) {
        if j > 0 {
          StrLessTransitive(x, s[0], s[j]);
        }
      }
      SortedCons(x, s);
    } else {
      StrLessTotal(x, s[0]);
      var rest := s[1..];
      assert StrictlySorted(rest) by {
        forall i, j | 0 <= i < j < |rest| ensures StrLess(rest[i], rest[j]) {
          assert rest[i] == s[i + 1] && rest[j] == s[j + 1];
        }
      }
      InsertSorted(x, rest);
      var t := Insert(x, rest);
      assert s == [s[0]] + rest;
      assert Insert(x, s) == [s[0]] + t;
      HeadBelow(s[0], x, rest, t);
      SortedCons(s[0], t);
    }
  }

  /** A string below `x` and below all of `rest` is below every element of a
      rearrangement of `rest` with `x` added. */
  lemma HeadBelow(h: string, x: string, rest: seq<string>, t: seq<string>)
    requires StrictlySorted([h] + rest) && StrLess(h, x)
    requires multiset(t) == multiset(rest) + multiset{x}
    ensures forall k :: 0 <= k < |t| ==> StrLess(h, t[k])
  {
    forall k | 0 <= k < |t| ensures StrLess(h, t[k]) {
      assert t[k] in multiset(t);
      if t[k] != x {
        assert t[k] in rest;
        var m :| 0 <= m < |rest| && rest[m] == t[k];
        var u := [h] + rest;
        assert u[0] == h && u[m + 1] == t[k];
        assert StrLess(u[0], u[m + 1]);
      }
    }
  }

  /** Sorting distinct strings yields them in strictly ascending order, none
      lost and none added. */
  lemma {:induction false} SortStringsCorrect(s: seq<string>)
    requires NoDuplicates(s)
    ensures StrictlySorted(SortStrings(s))
    ensures multiset(SortStrings(s)) == multiset(s)
  {
    if s != [] {
      assert s == [s[0]] + s[1..];
      SortStringsCorrect(s[1..]);
      assert s[0] !in multiset(SortStrings(s[1..]));
      InsertSorted(s[0], SortStrings(s[1..]));
    }
  }

  /** The index strings of the indexed messages, in Python's sorted order. */
  function SortedIndices(messages: seq<MessageEntry>, key: string): seq<string>
  {
    SortStrings(IndexOrder(messages, key))
  }

  /** `MessageConfig.get_message_dicts(key)`: the message texts of every
      `<key>_<n>_<field>` entry, one dictionary per index `n`, the dictionaries
      ordered by the index string. */
  method GetMessageDicts(messages: seq<MessageEntry>, key: string) returns (r: seq<map<string, string>>)
    ensures |r| == |SortedIndices(messages, key)|
    ensures forall i :: 0 <= i < |r| ==> SortedIndices(messages, key)[i] in Grouped(messages, key)
                                         && r[i] == Grouped(messages, key)[SortedIndices(messages, key)[i]]
  {
    var dicts: map<string, map<string, string>> := map[];
    var order: seq<string> := [];
    for i := 0 to |messages|
      invariant dicts == Grouped(messages[..i], key)
      invariant order == IndexOrder(messages[..i], key)
    {
      assert messages[..i + 1][..i] == messages[..i];
      match MatchIndexed(key, messages[i].name)
      case None =>
      case Some((idx, field)) =>
        IndexOrderIsKeys(messages[..i], key);
        if idx !in dicts {
          order := order + [idx];
          dicts := dicts[idx := map[]];
        }
        dicts := dicts[idx := dicts[idx][field := messages[i].text]];
    }
    assert messages[..|messages|] == messages;
    IndexOrderIsKeys(messages, key);
    var sorted := SortStrings(order);
    SortStringsCorrect(order);
    assert forall k :: 0 <= k < |sorted| ==> sorted[k] in dicts by {
      forall k | 0 <= k < |sorted| ensures sorted[k] in dicts {
        assert sorted[k] in multiset(order);
      }
    }
    r := seq(|sorted|, k requires 0 <= k < |sorted| => dicts[sorted[k]]);
  }

  /** The dictionaries come in strictly ascending order of their index string,
      one per distinct index among the matching names. */
  lemma MessageDictsOrdered(messages: seq<MessageEntry>, key: string)
    ensures StrictlySorted(SortedIndices(messages, key))
    ensures forall idx :: idx in SortedIndices(messages, key) <==> idx in Grouped(messages, key)
    ensures NoDuplicates(SortedIndices(messages, key))
  {
    var order := IndexOrder(messages, key);
    IndexOrderIsKeys(messages, key);
    SortStringsCorrect(order);
    var s := SortedIndices(messages, key);
    forall idx ensures idx in s <==> idx in order {
      assert idx in s <==> idx in multiset(s);
    }
    forall i, j | 0 <= i < j < |s| ensures s[i] != s[j] {
      if s[i] == s[j] {
        StrLessIrreflexive(s[i]);
      }
    }
  }

  /** A name that does not have the indexed shape contributes nothing. */
  lemma {:induction false} NonIndexedIgnored(messages: seq<MessageEntry>, m: MessageEntry, key: string)
    requires forall idx, field :: !IsIndexedName(key, m.name, idx, field)
    ensures Grouped(messages + [m], key) == Grouped(messages, key)
    ensures IndexOrder(messages + [m], key) == IndexOrder(messages, key)
  {
    assert (messages + [m])[..|messages|] == messages;
  }

  /** After an indexed message, its index maps its field to its text, whatever
      an earlier message with the same index and field said; the index's other
      fields and every other index keep what they held. */
  lemma {:induction false} LaterMessageOverwrites(messages: seq<MessageEntry>, key: string, idx: string, field: string, text: string)
    requires IsIndexedName(key, key + "_" + idx + "_" + field, idx, field)
    ensures var g := Grouped(messages + [MessageEntry(key + "_" + idx + "_" + field, text)], key);
            idx in g && field in g[idx] && g[idx][field] == text
    ensures var g0 := Grouped(messages, key);
            var g := Grouped(messages + [MessageEntry(key + "_" + idx + "_" + field, text)], key);
            && (forall i :: i in g0 && i != idx ==> i in g && g[i] == g0[i])
            && (idx in g0 ==> forall f :: f in g0[idx] && f != field ==> f in g[idx] && g[idx][f] == g0[idx][f])
  {
    var m := MessageEntry(key + "_" + idx + "_" + field, text);
    MatchIndexedComplete(key, m.name, idx, field);
    assert (messages + [m])[..|messages|] == messages;
  }
}
