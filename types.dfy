/** The records shared by every component (types.ts) and the few fixed values the handlers stamp on them. */
module Types {
  import opened Text

  /** A blog post as held in the post list (types.ts:1-10). */
  datatype Post = Post(
    id: string,
    title: string,
    summary: string,
    content: string,
    author: string,
    date: string,
    imageUrl: string,
    tags: seq<string>)

  /** The structured draft the content generator returns (types.ts:12-17). */
  datatype AIResponse = AIResponse(title: string, content: string, summary: string, tags: seq<string>)

  /** A settled promise: fulfilled with a value or rejected with an error message. */
  datatype Result<T> = Ok(value: T) | Err(message: string)

  datatype Option<T> = None | Some(value: T)

  /** The site owner, stamped as author on every post created in the app. */
  const OwnerName: string := "Rıdvan Haliloğlu"

  /** The single tag a manually written post receives. */
  const GeneralTag: string := "Genel"

  const PlaceholderPrefix: string := "https://picsum.photos/800/600?random="

  /** `Date.now().toString()`: the id a post created at clock reading `now` (milliseconds) receives. */
  function ClockId(now: nat): (id: string)
    ensures id != [] && AllDigits(id)
    ensures |id| > 1 ==> id[0] != '0'
    ensures ParseDecimal(id) == now
  {
    DecimalRound(now);
    Decimal(now)
  }

  /** The placeholder picture URL built from clock reading `now`. */
  function PlaceholderUrl(now: nat): (url: string)
    ensures PlaceholderPrefix < url
    ensures AllDigits(url[|PlaceholderPrefix|..])
    ensures |url| > |PlaceholderPrefix| + 1 ==> url[|PlaceholderPrefix|] != '0'
    ensures ParseDecimal(url[|PlaceholderPrefix|..]) == now
  {
    var url := PlaceholderPrefix + ClockId(now);
    assert url[|PlaceholderPrefix|..] == ClockId(now);
    url
  }

  /** Posts stamped at different clock readings never share an id. */
  lemma ClockIdsDistinct(a: nat, b: nat)
    requires a != b
    ensures ClockId(a) != ClockId(b)
  {
  }
}
