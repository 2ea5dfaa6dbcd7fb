/**
 * `DatabaseManager.generateTitle`: a conversation's title from its first
 * user message, trimmed and cut to a maximum length with a "..." marker.
 * The rest of the database manager is persistence and is not modelled.
 */
module DbManager {
  import opened Strings

  const DefaultTitleLength: int := 50
  const Ellipsis: string := "..."

  /** `substring(0, maxLength - 3)` clamps a negative end to 0. */
  function Cut(maxLength: int): nat {
    if maxLength - 3 < 0 then 0 else maxLength - 3
  }

  /** The trimmed message when it fits; otherwise its first `maxLength - 3` characters and "...". */
  function GenerateTitle(firstUserMessage: string, maxLength: int := DefaultTitleLength): (r: string)
    ensures |Trim(firstUserMessage)| <= maxLength ==> r == Trim(firstUserMessage)
    ensures |Trim(firstUserMessage)| > maxLength ==>
              && |r| == Cut(maxLength) + 3 && r[|r| - 3..] == Ellipsis
              && StartsWith(Trim(firstUserMessage), r[..|r| - 3])
  {
    var cleaned := Trim(firstUserMessage);
    if |cleaned| <= maxLength then cleaned else cleaned[..Cut(maxLength)] + Ellipsis
  }

  /** With room for the marker, a title is never longer than the limit; the default limit is 50. */
  lemma TitleBounded(firstUserMessage: string, maxLength: int)
    requires maxLength >= 3
    ensures |GenerateTitle(firstUserMessage, maxLength)| <= maxLength
    ensures |GenerateTitle(firstUserMessage)| <= 50
  {
  }

  /** A title is the trimmed message itself, or a prefix of it followed by "..." */
  lemma TitleFromMessage(firstUserMessage: string, maxLength: int)
    ensures var r := GenerateTitle(firstUserMessage, maxLength);
            var cleaned := Trim(firstUserMessage);
            r == cleaned || (|r| >= 3 && r[|r| - 3..] == Ellipsis && StartsWith(cleaned, r[..|r| - 3]))
  {
  }

  /** A title never starts with white space, and one that was not cut never ends with it. */
  lemma TitleHasNoOuterSpace(firstUserMessage: string, maxLength: int)
    ensures var r := GenerateTitle(firstUserMessage, maxLength);
            && (r != [] ==> !IsWhitespace(r[0]))
            && (r == Trim(firstUserMessage) && r != [] ==> !IsWhitespace(r[|r| - 1]))
  {
    var cleaned := Trim(firstUserMessage);
    var r := GenerateTitle(firstUserMessage, maxLength);
    if |cleaned| > maxLength && Cut(maxLength) > 0 {
      assert r[0] == cleaned[0];
    }
  }

  /** Trimming twice is trimming once. */
  lemma TrimIdempotent(s: string)
    ensures Trim(Trim(s)) == Trim(s)
  {
    if Trim(s) != [] {
      TrimUnpadded(Trim(s));
    }
  }

  /** Making a title of a title changes nothing, whenever the limit leaves room for "..." */
  lemma TitleIdempotent(firstUserMessage: string, maxLength: int)
    requires maxLength >= 3
    ensures GenerateTitle(GenerateTitle(firstUserMessage, maxLength), maxLength) == GenerateTitle(firstUserMessage, maxLength)
  {
    var cleaned := Trim(firstUserMessage);
    var r := GenerateTitle(firstUserMessage, maxLength);
    if |cleaned| <= maxLength {
      TrimIdempotent(firstUserMessage);
    } else {
      assert r[|r| - 1] == '.';
      if Cut(maxLength) > 0 {
        assert r[0] == cleaned[0];
      } else {
        assert r == Ellipsis;
      }
      TrimUnpadded(r);
    }
  }
}
