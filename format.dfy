/** The text of a log line: the channel prefix (`formatPrefix`,
    logger.service.ts lines 129-137) and the aligned table row
    (`toLogFormat`, lines 114-119). Widths are JavaScript string lengths,
    i.e. UTF-16 code units. */
module Format {
  import opened Wrappers
  import opened Text
  import opened Environment

  /** U+200B ZERO WIDTH SPACE, the fill of the emoji column. */
  const ZeroWidthSpace: char := '\U{200B}'

  const TimestampWidth: nat := 20
  const LevelWidth: nat := 7
  const LocationWidth: nat := 25
  const Separator := " | "

  /** Where the message column begins when every field fits its width. */
  const MessageColumn: nat := TimestampWidth + 3 + LevelWidth + 3 + LocationWidth + 3

  /** The fields of a row before its message: the timestamp, the upper-cased
      level and the location, each padded to its width and followed by " | ". */
  function RowHead(timestamp: string, level: string, location: string): (r: string)
    ensures r == PadEnd(timestamp, TimestampWidth, ' ') + Separator + PadEnd(ToUpper(level), LevelWidth, ' ')
      + Separator + PadEnd(location, LocationWidth, ' ') + Separator
    ensures StartsWith(r, timestamp)
    ensures Utf16Length(r)
      == Max(TimestampWidth, Utf16Length(timestamp)) + Max(LevelWidth, Utf16Length(level))
         + Max(LocationWidth, Utf16Length(location)) + 9
  {
    var t := PadEnd(timestamp, TimestampWidth, ' ');
    var l := PadEnd(ToUpper(level), LevelWidth, ' ');
    var loc := PadEnd(location, LocationWidth, ' ');
    ToUpperUtf16Length(level);
    Utf16LengthAppend(t, Separator);
    Utf16LengthAppend(t + Separator, l);
    Utf16LengthAppend(t + Separator + l, Separator);
    Utf16LengthAppend(t + Separator + l + Separator, loc);
    Utf16LengthAppend(t + Separator + l + Separator + loc, Separator);
    assert Utf16Length(Separator) == 3;
    var r := t + Separator + l + Separator + loc + Separator;
    assert r[..|timestamp|] == timestamp;
    r
  }

  /** When the timestamp fits its width, the upper-cased level starts at code
      unit 23, right after the first " | " separator. */
  lemma LevelColumn(timestamp: string, level: string, location: string)
    requires Utf16Length(timestamp) <= TimestampWidth
    ensures exists pre, post ::
      && RowHead(timestamp, level, location) == pre + ToUpper(level) + post
      && Utf16Length(pre) == TimestampWidth + 3 == 23 && EndsWith(pre, Separator)
  {
    var t := PadEnd(timestamp, TimestampWidth, ' ');
    var l := PadEnd(ToUpper(level), LevelWidth, ' ');
    var loc := PadEnd(location, LocationWidth, ' ');
    SplitAt(t + Separator, l, Separator + loc + Separator, ToUpper(level));
    SeparatedWidth(t);
    assert RowHead(timestamp, level, location) == t + Separator + ToUpper(level) + (l[|ToUpper(level)|..] + (Separator + loc + Separator));
  }

  /** When the timestamp and the level fit their widths, the location starts
      at code unit 33, right after the second " | " separator. */
  lemma LocationColumn(timestamp: string, level: string, location: string)
    requires Utf16Length(timestamp) <= TimestampWidth && Utf16Length(level) <= LevelWidth
    ensures exists pre, post ::
      && RowHead(timestamp, level, location) == pre + location + post
      && Utf16Length(pre) == TimestampWidth + 3 + LevelWidth + 3 == 33 && EndsWith(pre, Separator)
  {
    var t := PadEnd(timestamp, TimestampWidth, ' ');
    var l := PadEnd(ToUpper(level), LevelWidth, ' ');
    var loc := PadEnd(location, LocationWidth, ' ');
    ToUpperUtf16Length(level);
    SeparatedWidth(t);
    SeparatedWidth(t + Separator + l);
    Utf16LengthAppend(t + Separator, l);
    SplitAt(t + Separator + l + Separator, loc, Separator, location);
  }

  /** Splitting the middle piece of `a + m + b` after its first `|f|` units. */
  lemma SplitAt(a: string, m: string, b: string, f: string)
    requires |f| <= |m| && m[..|f|] == f
    ensures a + m + b == a + f + (m[|f|..] + b)
  {
    assert m == f + m[|f|..];
  }

  /** A separator adds its three code units and ends the string. */
  lemma SeparatedWidth(s: string)
    ensures Utf16Length(s + Separator) == Utf16Length(s) + 3 && EndsWith(s + Separator, Separator)
  {
    Utf16LengthAppend(s, Separator);
    assert Utf16Length(Separator) == 3;
    assert (s + Separator)[|s|..] == Separator;
  }

  /** The row `toLogFormat` prints: the padded fields, then the message. */
  function FormatLine(timestamp: string, level: string, message: string, location: string): string
  {
    RowHead(timestamp, level, location) + message
  }

  /** `head + (prefix + message)` splits back into `head + prefix` and `message`. */
  lemma SplitAfter(head: string, prefix: string, message: string)
    ensures var s := head + (prefix + message);
      && |message| <= |s| && s[|s| - |message|..] == message && s[..|s| - |message|] == head + prefix
  {
    var s := head + (prefix + message);
    assert s == (head + prefix) + message;
  }

  /** A row starts with its timestamp and ends with its message; when every
      field fits its width the message starts at code unit 61, whatever the
      field values: the rows line up as a table. */
  lemma MessageAligned(timestamp: string, level: string, message: string, location: string)
    ensures var r := FormatLine(timestamp, level, message, location);
      && StartsWith(r, timestamp) && |message| <= |r| && r[|r| - |message|..] == message
    ensures var r := FormatLine(timestamp, level, message, location);
      Utf16Length(timestamp) <= TimestampWidth && Utf16Length(level) <= LevelWidth
      && Utf16Length(location) <= LocationWidth
      ==> Utf16Length(r[..|r| - |message|]) == MessageColumn == 61
  {
    var head := RowHead(timestamp, level, location);
    SplitAfter(head, [], message);
    assert head + ([] + message) == head + message;
    assert (head + message)[..|timestamp|] == head[..|timestamp|];
  }

  /** The level label every channel prints: `logMessage` upper-cases the
      name and `toLogFormat` upper-cases it again, which changes nothing. */
  function LevelLabel(l: Level): (r: string)
    ensures r == ToUpper(ToUpper(Name(l)))
    ensures Utf16Length(r) <= LevelWidth
  {
    ToUpperIdempotent(Name(l));
    var r := ToUpper(Name(l));
    Utf16LengthBounds(r);
    r
  }

  /** Every level label fits its column, so the level never shifts the message. */
  lemma LevelNeverShiftsMessage(timestamp: string, l: Level, location: string)
    requires Utf16Length(timestamp) <= TimestampWidth
    requires Utf16Length(location) <= LocationWidth
    ensures Utf16Length(RowHead(timestamp, LevelLabel(l), location)) == MessageColumn
  {
  }

  /** JavaScript truthiness of the optional category. */
  predicate HasCategory(category: Option<string>)
  {
    category.Some? && category.value != ""
  }

  /** The emoji column of `formatPrefix`: the emoji and a zero-width space,
      padded with zero-width spaces to 4 code units, then two spaces. */
  function EmojiColumn(emoji: string): (r: string)
    ensures StartsWith(r, emoji) && |r| >= |emoji| + 3
    ensures forall i | |emoji| <= i < |r| - 2 :: r[i] == ZeroWidthSpace
    ensures r[|r| - 2..] == "  "
    ensures Utf16Length(r) == Max(4, Utf16Length(emoji) + 1) + 2
  {
    var marked := emoji + [ZeroWidthSpace];
    var padded := PadEnd(marked, 4, ZeroWidthSpace);
    Utf16LengthAppend(emoji, [ZeroWidthSpace]);
    Utf16LengthAppend(padded, "  ");
    assert padded[..|emoji|] == marked[..|emoji|] == emoji;
    assert (padded + "  ")[..|emoji|] == emoji;
    padded + "  "
  }

  /** The category column of `formatPrefix`: the bracketed category padded to 10. */
  function CategoryColumn(category: string): (r: string)
    ensures StartsWith(r, "[" + category + "]")
    ensures forall i | |category| + 2 <= i < |r| :: r[i] == ' '
    ensures Utf16Length(r) == Max(10, Utf16Length(category) + 2)
  {
    Utf16LengthAppend("[", category);
    Utf16LengthAppend("[" + category, "]");
    PadEnd("[" + category + "]", 10, ' ')
  }

  /** `formatPrefix`: the emoji column, then the category column when there
      is a category. */
  function FormatPrefix(emoji: string, category: Option<string>): (r: string)
    ensures StartsWith(r, emoji)
    ensures Utf16Length(r)
      == Max(4, Utf16Length(emoji) + 1) + 2
         + (if HasCategory(category) then Max(10, Utf16Length(category.value) + 2) else 0)
    ensures HasCategory(category) ==> Contains(r, "[" + category.value + "]")
    ensures r == EmojiColumn(emoji) + (if HasCategory(category) then CategoryColumn(category.value) else "")
  {
    var e := EmojiColumn(emoji);
    if !HasCategory(category) then e
    else
      var tag := "[" + category.value + "]";
      var c := CategoryColumn(category.value);
      Utf16LengthAppend(e, c);
      assert (e + c)[..|emoji|] == e[..|emoji|];
      assert (e + c)[|e|..][..|tag|] == c[..|tag|];
      ContainsAfter(e + c, |e|, tag);
      e + c
  }

  lemma {:induction false} ContainsAfter(s: string, k: nat, t: string)
    requires k + |t| <= |s| && s[k..][..|t|] == t
    ensures Contains(s, t)
    decreases k
  {
    if k > 0 {
      assert s[1..][k - 1..] == s[k..];
      ContainsAfter(s[1..], k - 1, t);
    }
  }

  /** The emoji of each channel. */
  function Emoji(l: Level): string
  {
    match l
    case Info => "\U{1F7E2}"
    case Success => "\U{2705}"
    case Api => "\U{1F680}"
    case Db => "\U{1F4BE}"
    case Client => "\U{1F916}"
    case Warn => "\U{1F536}"
    case Error => "\U{274C}"
    case Debug => "\U{1F41E}"
    case Verbose => "\U{1F50D}"
  }

  /** The category tag of each channel; info, warn and error have none. */
  function Category(l: Level): Option<string>
  {
    match l
    case Success => Some("SUCCESS")
    case Api => Some("API")
    case Db => Some("DB")
    case Client => Some("CLIENT")
    case Debug => Some("DEBUG")
    case Verbose => Some("VERBOSE")
    case _ => None
  }

  /** The prefix each channel method builds. */
  function ChannelPrefix(l: Level): string
  {
    FormatPrefix(Emoji(l), Category(l))
  }

  /** Every prefix without a category is 6 code units and every prefix with
      one is 16, whether the emoji takes one code unit or two, so the
      messages of the channels line up too. */
  lemma ChannelPrefixWidth(l: Level)
    ensures StartsWith(ChannelPrefix(l), Emoji(l))
    ensures Utf16Length(ChannelPrefix(l)) == if HasCategory(Category(l)) then 16 else 6
  {
    assert |Emoji(l)| == 1;
    assert Category(l).Some? ==> Utf16Length(Category(l).value) <= 8;
    PrefixWidth(Emoji(l), Category(l));
  }

  /** A one-character emoji takes at most two code units, so its column is 6
      code units wide; a category of at most 8 code units fills its 10. */
  lemma PrefixWidth(emoji: string, category: Option<string>)
    requires |emoji| == 1
    requires category.Some? ==> Utf16Length(category.value) <= 8
    ensures Utf16Length(FormatPrefix(emoji, category)) == if HasCategory(category) then 16 else 6
  {
    Utf16LengthBounds(emoji);
  }
}
