/**
 * The offline responder (`OFFLINE_KNOWLEDGE` and `getOfflineResponse`,
 * scripts/scripts.js:54-60 and 89-95): the lower-cased input is matched against a
 * fixed table of keys in declaration order, and the first key that occurs in it
 * picks the reply.
 */
module Offline {

  import opened Options
  import opened Text

  /** The knowledge table as (key, reply) pairs, in declaration order. */
  const Knowledge: seq<(string, string)> := [
    ("hello", "Hi! I'm Great AI (offline mode). How can I assist you today?"),
    ("who created you", "I was developed by Great Mayuku, CEO of Evolutional Tech (2025)."),
    ("what is your version", "I am Great AI version 1.0 (Final Release)."),
    ("bye", "Goodbye! Looking forward to chatting again.")
  ]

  /** The reply when no key matches. */
  const OfflineDefault := "I'm in offline mode. Limited responses available."

  /** The reply of the first entry of `table` whose key occurs in `text`. */
  function FirstMatch(table: seq<(string, string)>, text: string): Option<string>
  {
    if table == [] then None
    else if Contains(text, table[0].0) then Some(table[0].1)
    else FirstMatch(table[1..], text)
  }

  /** Entry `i` is the first entry of `table` whose key occurs in `text`. */
  predicate IsFirstMatch(table: seq<(string, string)>, text: string, i: int)
  {
    0 <= i < |table| && Contains(text, table[i].0)
    && forall j | 0 <= j < i :: !Contains(text, table[j].0)
  }

  /** `getOfflineResponse`, as a value: the specification the loop below is proved against. */
  function OfflineReply(text: string): string
  {
    match FirstMatch(Knowledge, ToLowerAscii(text))
    case Some(reply) => reply
    case None => OfflineDefault
  }

  /** The first matching entry, and only it, decides the result. */
  lemma {:induction false} FirstMatchAt(table: seq<(string, string)>, text: string, i: int)
    requires IsFirstMatch(table, text, i)
    ensures FirstMatch(table, text) == Some(table[i].1)
  {
    if i > 0 {
      assert !Contains(text, table[0].0);
      FirstMatchAt(table[1..], text, i - 1);
    }
  }

  /** No entry matches exactly when there is no result. */
  lemma {:induction false} FirstMatchNone(table: seq<(string, string)>, text: string)
    ensures FirstMatch(table, text) == None <==> forall i | 0 <= i < |table| :: !Contains(text, table[i].0)
  {
    if table != [] {
      FirstMatchNone(table[1..], text);
      assert forall i | 1 <= i < |table| :: table[i] == table[1..][i - 1];
    }
  }

  /** The offline reply is the reply of the first key, in declaration order, found in the lower-cased input. */
  lemma OfflineReplyFirstKeyWins(text: string, i: int)
    requires IsFirstMatch(Knowledge, ToLowerAscii(text), i)
    ensures OfflineReply(text) == Knowledge[i].1
  {
    FirstMatchAt(Knowledge, ToLowerAscii(text), i);
  }

  /** When no key occurs in the lower-cased input, the offline reply is the fixed default. */
  lemma OfflineReplyDefault(text: string)
    requires forall i | 0 <= i < |Knowledge| :: !Contains(ToLowerAscii(text), Knowledge[i].0)
    ensures OfflineReply(text) == OfflineDefault
  {
    FirstMatchNone(Knowledge, ToLowerAscii(text));
  }

  /** `getOfflineResponse`: lower-case, scan the table in order, return on the first key found. */
  method GetOfflineResponse(text: string) returns (reply: string)
    ensures reply == OfflineReply(text)
  {
    var lower := ToLowerAscii(text);
    var i := 0;
    while i < |Knowledge|
      invariant 0 <= i <= |Knowledge|
      invariant FirstMatch(Knowledge[i..], lower) == FirstMatch(Knowledge, lower)
    {
      if Contains(lower, Knowledge[i].0) {
        return Knowledge[i].1;
      }
      assert Knowledge[i..][1..] == Knowledge[i + 1..];
      i := i + 1;
    }
    return OfflineDefault;
  }

  /** Two keys in one input: the one declared first wins. */
  lemma GreetingBeatsFarewell()
    ensures OfflineReply("Hello bye") == Knowledge[0].1
  {
    var lower := ToLowerAscii("Hello bye");
    assert lower == "hello bye";
    assert OccursAt(lower, "hello", 0);
    OfflineReplyFirstKeyWins("Hello bye", 0);
  }

  /** Matching ignores ASCII case: an input and its lower-cased form get the same reply. */
  lemma OfflineReplyIgnoresCase(text: string)
    ensures OfflineReply(ToLowerAscii(text)) == OfflineReply(text)
  {
    ToLowerAsciiIdempotent(text);
  }

  /** An input in which no key occurs gets the fixed default. */
  lemma UnknownInputGetsDefault()
    ensures OfflineReply("Thanks") == OfflineDefault
  {
    var lower := ToLowerAscii("Thanks");
    assert lower == "thanks";
    assert !Contains(lower, "hello") by {
      forall k | 0 <= k <= |lower| - 5 ensures !OccursAt(lower, "hello", k) {
        assert lower[k..k + 5][0] != 'h' || lower[k..k + 5][1] != 'e';
      }
    }
    assert !Contains(lower, "bye") by {
      forall k | 0 <= k <= |lower| - 3 ensures !OccursAt(lower, "bye", k) {
        assert lower[k..k + 3][0] == lower[k] != 'b';
      }
    }
    OfflineReplyDefault("Thanks");
  }
}
