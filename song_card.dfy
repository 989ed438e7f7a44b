/**
 * `SongCard`'s reading of a suggested song: the suggestion flow asks the
 * model for strings of the form `title by artist`, and the card splits them
 * at `' by '`, showing the first piece as the title and the second as the
 * artist, with `Unknown Title`/`Unknown Artist` for a missing or empty piece.
 */
module SongCard {
  import Text

  const Separator := " by "
  const UnknownTitle := "Unknown Title"
  const UnknownArtist := "Unknown Artist"

  datatype Label = Label(title: string, artist: string)

  /** The format the suggestion prompt asks for. */
  function Format(title: string, artist: string): string {
    title + Separator + artist
  }

  /** `parts[0] || "Unknown Title"` and `parts[1] || "Unknown Artist"` of `title.split(' by ')`. */
  function ParseSong(s: string): Label {
    var parts := Text.Split(s, Separator);
    Label(if parts[0] != "" then parts[0] else UnknownTitle,
          if |parts| > 1 && parts[1] != "" then parts[1] else UnknownArtist)
  }

  /** The card always shows a title and an artist. */
  lemma NeverEmpty(s: string)
    ensures ParseSong(s).title != "" && ParseSong(s).artist != ""
  {
  }

  /** `s` does not contain the separator. */
  predicate Plain(s: string) {
    Text.IndexOf(s, Separator).None?
  }

  /** `s` ends in ` by`, so that the separator written after it would be found one character early. */
  predicate EndsWithBy(s: string) {
    |s| >= 3 && s[|s| - 3..] == " by"
  }

  /** A plain title that does not end in ` by` has the separator written after it as its first one. */
  lemma SeparatorAfterTitle(a: string)
    requires Plain(a) && !EndsWithBy(a)
    ensures forall j: nat :: j < |a| ==> !Text.OccursAt(a + Separator, Separator, j)
  {
    var s := a + Separator;
    forall j: nat | j < |a| ensures !Text.OccursAt(s, Separator, j) {
      if j + 4 <= |a| {
        assert s[j..j + 4] == a[j..j + 4];
        assert !Text.OccursAt(a, Separator, j);
      } else if j + 3 == |a| {
        assert s[j..j + 3] == a[|a| - 3..];
        assert s[j..j + 4][..3] == s[j..j + 3];
      } else if j + 2 == |a| {
        assert s[j..j + 4][2] == s[|a|] == ' ';
      } else {
        assert s[j..j + 4][1] == s[|a|] == ' ';
      }
    }
  }

  /** When the title is plain and does not end in ` by`, the first piece of the prompt's format is the title. */
  lemma SplitFormat(title: string, rest: string)
    requires Plain(title) && !EndsWithBy(title)
    ensures Text.Split(Format(title, rest), Separator) == [title] + Text.Split(rest, Separator)
  {
    SeparatorAfterTitle(title);
    Text.SplitAtFirst(title, Separator, rest);
  }

  /**
   * Reading inverts the prompt's format for a non-empty title and artist
   * without the separator, provided the title does not end in ` by`.
   */
  lemma ParseFormat(title: string, artist: string)
    requires title != "" && artist != ""
    requires Plain(title) && !EndsWithBy(title) && Plain(artist)
    ensures ParseSong(Format(title, artist)) == Label(title, artist)
  {
    SplitFormat(title, artist);
  }

  /**
   * A title ending in ` by` is not read back: the title `x by` and the
   * artist `y` are written `x by by y`, which is read as the title `x` and
   * the artist `by y`.
   */
  lemma TitleEndingInByIsMisread(x: string, y: string)
    requires x != "" && Plain(x) && !EndsWithBy(x) && Plain("by " + y)
    ensures Format(x + " by", y) == Format(x, "by " + y)
    ensures ParseSong(Format(x + " by", y)) == Label(x, "by " + y) != Label(x + " by", y)
  {
    assert (x + " by") + Separator + y == x + Separator + ("by " + y);
    SplitFormat(x, "by " + y);
  }

  /** A non-empty string without the separator is all title, with an unknown artist; the empty string is unknown on both counts. */
  lemma NoSeparator(s: string)
    requires Plain(s)
    ensures s != "" ==> ParseSong(s) == Label(s, UnknownArtist)
    ensures s == "" ==> ParseSong(s) == Label(UnknownTitle, UnknownArtist)
  {
  }

  /** A string that starts with the separator has an unknown title and the next piece as its artist. */
  lemma LeadingSeparator(rest: string)
    ensures ParseSong(Separator + rest).title == UnknownTitle
    ensures ParseSong(Separator + rest).artist
         == if Text.Split(rest, Separator)[0] != "" then Text.Split(rest, Separator)[0] else UnknownArtist
  {
    assert Separator + rest == "" + Separator + rest;
    Text.SplitAtFirst("", Separator, rest);
  }

  /** Pieces after the second separator are dropped: only the first two pieces are read. */
  lemma ExtraPiecesDropped(title: string, artist: string, rest: string)
    requires Plain(title) && !EndsWithBy(title) && Plain(artist) && !EndsWithBy(artist)
    ensures ParseSong(Format(title, Format(artist, rest))) == ParseSong(Format(title, artist))
  {
    SplitFormat(title, Format(artist, rest));
    SplitFormat(artist, rest);
    SplitFormat(title, artist);
  }
}
