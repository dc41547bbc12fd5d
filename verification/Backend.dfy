/** What the compiled queries take from Postgres and chrono without being able
    to look inside. */
module Backend {
  import opened Prelude

  datatype Backend = Backend(
    /** The collation: a text's place in the order of the database. Every total
        order on strings embeds in the rationals, so this is no restriction. */
    collate: string -> real,
    /** `DateTime::to_rfc3339` and `DateTime::parse_from_rfc3339`. */
    showTime: int -> string,
    readTime: string -> Option<int>,
    /** A path element read as an array subscript by `#>`. */
    subscript: string -> Option<int>,
    /** A jsonpath string escape: the character it stands for, and how many
        characters after the backslash it takes. */
    unescape: string -> Option<(char, nat)>)
  {
    ghost predicate Sound() {
      && (forall s, t :: collate(s) == collate(t) ==> s == t)
      && (forall t :: readTime(showTime(t)) == Some(t))
      && (forall s :: unescape(s).Some? ==> 1 <= unescape(s).value.1 <= |s|)
      && (forall s :: s != "" && s[0] == '"' ==> unescape(s) == Some(('"', 1)))
    }
  }

  // ----------------------------------------------- the hypotheses can be met

  const CHARS := 0x110000

  /** A text as a number, its characters the digits 1 to `CHARS`. */
  function Code(s: string): nat {
    if s == "" then 0 else 1 + s[0] as int + CHARS * Code(s[1..])
  }

  lemma {:induction false} CodeTells(s: string, t: string)
    requires Code(s) == Code(t)
    ensures s == t
  {
    if s != "" && t != "" {
      assert Code(s[1..]) == Code(t[1..]) && s[0] == t[0];
      CodeTells(s[1..], t[1..]);
      assert s == [s[0]] + s[1..] && t == [t[0]] + t[1..];
    }
  }

  function Tally(t: int): string {
    if t < 0 then "-" + seq(-t, i => 'x') else seq(t, i => 'x')
  }

  function ReadTally(s: string): Option<int> {
    Some(if s != "" && s[0] == '-' then 1 - |s| else |s|)
  }

  /** What `Sound` asks can be had all at once, with the escape of a line feed. */
  lemma SoundBackend() returns (be: Backend)
    ensures be.Sound() && be.unescape("n\"") == Some(('\n', 1))
  {
    be := Backend((s: string) => Code(s) as real, Tally, ReadTally, (s: string) => None,
                  (s: string) => if s == "" then None else Some((if s[0] == 'n' then '\n' else s[0], 1)));
    forall s, t | be.collate(s) == be.collate(t) ensures s == t {
      CodeTells(s, t);
    }
  }
}
