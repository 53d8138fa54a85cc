/** The notification text of a run (notify.py, lines 75-94) and a reader that takes such a text apart
    again, line by line, into the lists it was built from. */
module Notification {
  import opened Wrappers
  import opened Lines

  const NewDaysTitle := "🔥 Found new available days!"
  const ChangedTitle := "⚡\U{FE0F} Available days changed!"
  const GreetingLine := " Goedemorgen! 🇳🇱"
  const ListingTitle := "All available dates:"

  /** Marker of a date that is (or became) available. */
  const AddedMarker := "🟢"
  /** Marker of a date that is no longer available. */
  const RemovedMarker := "❌"

  /** Header of a message that reports at least one new date. */
  const NewDaysHeader := NewDaysTitle + "\n"
  /** Header of a message that only reports dates that went away. */
  const ChangedHeader := ChangedTitle + "\n"
  /** What the morning listing starts with. */
  const ListingHeader := "\n\n" + GreetingLine + "\n" + ListingTitle + "\n"

  /** One date rendered after its marker, as `'<marker> {}'.format(date)`. */
  function Bullet(marker: string, date: string): string
  {
    marker + " " + date
  }

  function Bullets(marker: string, dates: seq<string>): (ls: seq<string>)
    ensures |ls| == |dates|
    ensures forall i :: 0 <= i < |dates| ==> ls[i] == Bullet(marker, dates[i])
  {
    seq(|dates|, i requires 0 <= i < |dates| => Bullet(marker, dates[i]))
  }

  /** The first line of a message that reports a diff. */
  function Title(added: seq<string>): string
  {
    if added != [] then NewDaysTitle else ChangedTitle
  }

  /** The reservation URL closes the diff part when something was added. */
  function UrlText(added: seq<string>, reservationUrl: string): string
  {
    if added != [] then "\n\n" + reservationUrl else ""
  }

  /** One line per added date, then one line per removed date. */
  function BulletText(added: seq<string>, removed: seq<string>): string
  {
    Prefixed(Bullets(AddedMarker, added)) + Prefixed(Bullets(RemovedMarker, removed))
  }

  /** The part of the message that reports the diff: empty when nothing changed; otherwise a header
      picked by whether anything was added, a line per added date, a line per removed date, and the
      reservation URL when something was added. */
  function DiffText(added: seq<string>, removed: seq<string>, reservationUrl: string): (t: string)
    ensures t == "" <==> added == [] && removed == []
    ensures added != [] ==> NewDaysHeader <= t
    ensures added != [] ==> |t| >= |reservationUrl| + 2 && t[|t| - |reservationUrl| - 2..] == "\n\n" + reservationUrl
    ensures added == [] && removed != [] ==> ChangedHeader <= t
  {
    if added == [] && removed == [] then ""
    else
      var header := Title(added) + "\n";
      var url := UrlText(added, reservationUrl);
      var t := header + (BulletText(added, removed) + url);
      assert header <= t;
      assert t[|t| - |url|..] == url;
      t
  }

  /** The morning listing: a greeting, then every currently available date with the added marker. */
  function ListingText(dates: seq<string>): (t: string)
    ensures ListingHeader <= t
  {
    ListingHeader + Prefixed(Bullets(AddedMarker, dates))
  }

  /** The whole message of a run. It is empty, and then no message is sent, exactly when nothing was
      added, nothing was removed and the listing is not due. */
  function NotificationText(added: seq<string>, removed: seq<string>, reservationUrl: string,
                            printSlots: bool, dates: seq<string>): (t: string)
    ensures t == "" <==> added == [] && removed == [] && !printSlots
    ensures added != [] ==> NewDaysHeader <= t
    ensures added == [] && removed != [] ==> ChangedHeader <= t
    ensures added == [] && removed == [] && printSlots ==> ListingHeader <= t
  {
    var d := DiffText(added, removed, reservationUrl);
    if printSlots then
      var t := d + ListingText(dates);
      assert d <= t;
      t
    else d
  }

  // ---------------------------------------------------------------------------------------------
  // Reading a message back

  /** What a message says: the added and removed dates, the URL if one was given, and the full listing
      if one was appended. */
  datatype Report = Report(added: seq<string>, removed: seq<string>, url: Option<string>, listing: Option<seq<string>>)

  predicate HasMarker(marker: string, line: string)
  {
    |marker| + 1 <= |line| && line[..|marker| + 1] == marker + " "
  }

  /** The dates of the leading lines that carry the marker, and the lines after them. */
  function TakeMarked(marker: string, ls: seq<string>): (r: (seq<string>, seq<string>))
    ensures |r.1| <= |ls|
  {
    if ls == [] || !HasMarker(marker, ls[0]) then ([], ls)
    else
      var (dates, rest) := TakeMarked(marker, ls[1..]);
      ([ls[0][|marker| + 1..]] + dates, rest)
  }

  const ListingIntroLines: seq<string> := ["", GreetingLine, ListingTitle, ""]

  /** Reads the lines of a listing, starting at the blank line that opens it. */
  function ParseListing(ls: seq<string>): Option<seq<string>>
  {
    if |ls| < 4 || ls[..4] != ListingIntroLines then None
    else
      var (dates, rest) := TakeMarked(AddedMarker, ls[4..]);
      if rest == [] then Some(dates) else None
  }

  /** Reads what follows the diff part: nothing, or a listing. */
  function ParseTail(ls: seq<string>): Option<Option<seq<string>>>
  {
    if ls == [] then Some(None)
    else
      match ParseListing(ls)
      case Some(dates) => Some(Some(dates))
      case None => None
  }

  function ParseLines(ls: seq<string>): Option<Report>
  {
    if ls == [] then None
    else if ls == [""] then Some(Report([], [], None, None))
    else if ls[0] == "" then
      match ParseListing(ls[1..])
      case Some(dates) => Some(Report([], [], None, Some(dates)))
      case None => None
    else if |ls| < 2 || ls[1] != "" || (ls[0] != NewDaysTitle && ls[0] != ChangedTitle) then None
    else
      var (added, afterAdded) := TakeMarked(AddedMarker, ls[2..]);
      var (removed, rest) := TakeMarked(RemovedMarker, afterAdded);
      if ls[0] == NewDaysTitle then
        if added == [] || |rest| < 2 || rest[0] != "" then None
        else
          match ParseTail(rest[2..])
          case Some(listing) => Some(Report(added, removed, Some(rest[1]), listing))
          case None => None
      else
        if added != [] || removed == [] then None
        else
          match ParseTail(rest)
          case Some(listing) => Some(Report(added, removed, None, listing))
          case None => None
  }

  /** Reads a message text back into what it reports. */
  function ParseMessage(text: string): Option<Report>
  {
    ParseLines(Split(text))
  }

  // ---------------------------------------------------------------------------------------------
  // The message, line by line

  function DiffLines(added: seq<string>, removed: seq<string>, reservationUrl: string): (ls: seq<string>)
    ensures |ls| >= 1
  {
    if added == [] && removed == [] then [""]
    else
      [Title(added), ""]
      + Bullets(AddedMarker, added) + Bullets(RemovedMarker, removed)
      + (if added != [] then ["", reservationUrl] else [])
  }

  function ListingLines(dates: seq<string>): seq<string>
  {
    ListingIntroLines + Bullets(AddedMarker, dates)
  }

  function MessageLines(added: seq<string>, removed: seq<string>, reservationUrl: string,
                        printSlots: bool, dates: seq<string>): (ls: seq<string>)
    ensures |ls| >= 1
  {
    DiffLines(added, removed, reservationUrl) + (if printSlots then ListingLines(dates) else [])
  }

  lemma BulletsOneLine(marker: string, dates: seq<string>)
    requires OneLine(marker) && AllOneLine(dates)
    ensures AllOneLine(Bullets(marker, dates))
  {
    forall i | 0 <= i < |dates|
      ensures OneLine(Bullets(marker, dates)[i])
    {
      var b := marker + " " + dates[i];
      assert forall k :: 0 <= k < |b| ==> b[k] != '\n' by {
        forall k | 0 <= k < |b|
          ensures b[k] != '\n'
        {
          if k < |marker| {
            assert b[k] == marker[k];
          } else if k > |marker| {
            assert b[k] == dates[i][k - |marker| - 1];
          }
        }
      }
    }
  }

  lemma AllOneLineAppend(a: seq<string>, b: seq<string>)
    requires AllOneLine(a) && AllOneLine(b)
    ensures AllOneLine(a + b)
  {
    forall i | 0 <= i < |a + b|
      ensures OneLine((a + b)[i])
    {
      if i >= |a| {
        assert (a + b)[i] == b[i - |a|];
      }
    }
  }

  lemma MessageLinesOneLine(added: seq<string>, removed: seq<string>, reservationUrl: string,
                            printSlots: bool, dates: seq<string>)
    requires AllOneLine(added) && AllOneLine(removed) && OneLine(reservationUrl) && AllOneLine(dates)
    ensures AllOneLine(MessageLines(added, removed, reservationUrl, printSlots, dates))
  {
    BulletsOneLine(AddedMarker, added);
    BulletsOneLine(RemovedMarker, removed);
    BulletsOneLine(AddedMarker, dates);
    if added != [] || removed != [] {
      var title: seq<string> := [Title(added), ""];
      var url: seq<string> := if added != [] then ["", reservationUrl] else [];
      AllOneLineAppend(title, Bullets(AddedMarker, added));
      AllOneLineAppend(title + Bullets(AddedMarker, added), Bullets(RemovedMarker, removed));
      AllOneLineAppend(title + Bullets(AddedMarker, added) + Bullets(RemovedMarker, removed), url);
    }
    AllOneLineAppend(ListingIntroLines, Bullets(AddedMarker, dates));
    var tail := if printSlots then ListingLines(dates) else [];
    AllOneLineAppend(DiffLines(added, removed, reservationUrl), tail);
  }

  lemma PrefixedTwo(a: string, b: string)
    ensures Prefixed([a, b]) == "\n" + a + "\n" + b
  {
    assert [a, b][1..] == [b];
    assert [b][1..] == [];
  }

  lemma JoinTitle(title: string)
    ensures Join([title, ""]) == title + "\n"
  {
    assert [title, ""][1..] == [""];
    assert Prefixed([""]) == "\n" + "" + Prefixed([]);
  }

  lemma PrefixedThree(a: seq<string>, b: seq<string>, c: seq<string>)
    ensures Prefixed(a + b + c) == Prefixed(a) + Prefixed(b) + Prefixed(c)
  {
    PrefixedAppend(a + b, c);
    PrefixedAppend(a, b);
  }

  /** The diff part is its lines joined by line breaks. */
  lemma DiffTextIsJoin(added: seq<string>, removed: seq<string>, reservationUrl: string)
    ensures DiffText(added, removed, reservationUrl) == Join(DiffLines(added, removed, reservationUrl))
  {
    if added != [] || removed != [] {
      var title := Title(added);
      var ba, br := Bullets(AddedMarker, added), Bullets(RemovedMarker, removed);
      var url: seq<string> := if added != [] then ["", reservationUrl] else [];
      assert Prefixed(url) == UrlText(added, reservationUrl) by {
        if added != [] {
          PrefixedTwo("", reservationUrl);
        }
      }
      assert DiffLines(added, removed, reservationUrl) == [title, ""] + ((ba + br) + url);
      JoinTitle(title);
      JoinAppend([title, ""], (ba + br) + url);
      PrefixedThree(ba, br, url);
    }
  }

  lemma ListingTextIsPrefixed(dates: seq<string>)
    ensures ListingText(dates) == Prefixed(ListingLines(dates))
  {
    PrefixedAppend(ListingIntroLines, Bullets(AddedMarker, dates));
    var l := ListingIntroLines;
    assert l[1..] == [GreetingLine, ListingTitle, ""];
    assert l[1..][1..] == [ListingTitle, ""];
    PrefixedTwo(ListingTitle, "");
  }

  /** The whole message is its lines joined by line breaks. */
  lemma NotificationTextIsJoin(added: seq<string>, removed: seq<string>, reservationUrl: string,
                               printSlots: bool, dates: seq<string>)
    ensures NotificationText(added, removed, reservationUrl, printSlots, dates)
         == Join(MessageLines(added, removed, reservationUrl, printSlots, dates))
  {
    DiffTextIsJoin(added, removed, reservationUrl);
    var d := DiffLines(added, removed, reservationUrl);
    if printSlots {
      ListingTextIsPrefixed(dates);
      JoinAppend(d, ListingLines(dates));
    } else {
      assert d + [] == d;
    }
  }

  // ---------------------------------------------------------------------------------------------
  // Reading a message back gives what it was built from

  lemma {:induction false} TakeMarkedBullets(marker: string, dates: seq<string>, tail: seq<string>)
    requires tail == [] || !HasMarker(marker, tail[0])
    ensures TakeMarked(marker, Bullets(marker, dates) + tail) == (dates, tail)
    decreases |dates|
  {
    var ls := Bullets(marker, dates) + tail;
    if dates == [] {
      assert ls == tail;
    } else {
      assert ls[0] == marker + " " + dates[0];
      assert ls[0][..|marker| + 1] == marker + " ";
      assert ls[0][|marker| + 1..] == dates[0];
      assert ls[1..] == Bullets(marker, dates[1..]) + tail;
      TakeMarkedBullets(marker, dates[1..], tail);
      assert dates == [dates[0]] + dates[1..];
    }
  }

  lemma NoAddedMarkerOnRemoved(removed: seq<string>, tail: seq<string>)
    requires tail == [] || tail[0] == ""
    ensures var ls := Bullets(RemovedMarker, removed) + tail;
      ls == [] || !HasMarker(AddedMarker, ls[0])
  {
    var ls := Bullets(RemovedMarker, removed) + tail;
    if removed != [] {
      assert ls[0][0] == RemovedMarker[0];
    }
  }

  lemma ParseListingLines(dates: seq<string>)
    ensures ParseListing(ListingLines(dates)) == Some(dates)
  {
    var ls := ListingLines(dates);
    assert ls[..4] == ListingIntroLines;
    assert ls[4..] == Bullets(AddedMarker, dates) + [];
    TakeMarkedBullets(AddedMarker, dates, []);
  }

  /** What follows the diff part reads as no listing, or as the listing it holds. */
  lemma ParseTailLines(printSlots: bool, dates: seq<string>)
    ensures var tail := if printSlots then ListingLines(dates) else [];
      && (tail == [] || tail[0] == "")
      && ParseTail(tail) == Some(if printSlots then Some(dates) else None)
  {
    if printSlots {
      ParseListingLines(dates);
    }
  }

  /** The bullet lines of a non-empty diff, followed by `rest`, read back as the two lists and `rest`. */
  lemma TakeBulletLines(added: seq<string>, removed: seq<string>, rest: seq<string>)
    requires rest == [] || rest[0] == ""
    ensures var lines := Bullets(AddedMarker, added) + Bullets(RemovedMarker, removed) + rest;
      var (a, afterAdded) := TakeMarked(AddedMarker, lines);
      a == added && TakeMarked(RemovedMarker, afterAdded) == (removed, rest)
  {
    var ba, br := Bullets(AddedMarker, added), Bullets(RemovedMarker, removed);
    assert ba + br + rest == ba + (br + rest);
    NoAddedMarkerOnRemoved(removed, rest);
    TakeMarkedBullets(AddedMarker, added, br + rest);
    TakeMarkedBullets(RemovedMarker, removed, rest);
  }

  /** The lines of a diff part that reports new dates, followed by a tail, read back as the lists,
      the URL and the tail's listing. */
  lemma ParseNewDaysLines(added: seq<string>, removed: seq<string>, reservationUrl: string,
                          tail: seq<string>, listing: Option<seq<string>>)
    requires added != []
    requires tail == [] || tail[0] == ""
    requires ParseTail(tail) == Some(listing)
    ensures ParseLines(DiffLines(added, removed, reservationUrl) + tail)
         == Some(Report(added, removed, Some(reservationUrl), listing))
  {
    var ba, br := Bullets(AddedMarker, added), Bullets(RemovedMarker, removed);
    var ls := DiffLines(added, removed, reservationUrl) + tail;
    var rest := ["", reservationUrl] + tail;
    assert ls == [NewDaysTitle, ""] + (ba + br + rest);
    assert ls[2..] == ba + br + rest;
    TakeBulletLines(added, removed, rest);
    assert ls[0] == NewDaysTitle && ls[1] == "" && ls[0] != "" && ls != [""];
    assert rest[0] == "" && rest[1] == reservationUrl;
    assert rest[2..] == tail;
  }

  /** The lines of a diff part that only reports removed dates, followed by a tail, read back as the
      lists and the tail's listing. */
  lemma ParseChangedLines(removed: seq<string>, reservationUrl: string,
                          tail: seq<string>, listing: Option<seq<string>>)
    requires removed != []
    requires tail == [] || tail[0] == ""
    requires ParseTail(tail) == Some(listing)
    ensures ParseLines(DiffLines([], removed, reservationUrl) + tail)
         == Some(Report([], removed, None, listing))
  {
    var ba, br := Bullets(AddedMarker, []), Bullets(RemovedMarker, removed);
    var ls := DiffLines([], removed, reservationUrl) + tail;
    assert ls == [ChangedTitle, ""] + (ba + br + tail);
    assert ls[2..] == ba + br + tail;
    TakeBulletLines([], removed, tail);
    assert ls[0] == ChangedTitle && ls[1] == "" && ls[0] != "" && ls != [""];
  }

  /** Reading the lines of a message back gives the lists and the URL it was built from. */
  lemma ParseMessageLines(added: seq<string>, removed: seq<string>, reservationUrl: string,
                          printSlots: bool, dates: seq<string>)
    ensures ParseLines(MessageLines(added, removed, reservationUrl, printSlots, dates))
         == Some(Report(added, removed, if added != [] then Some(reservationUrl) else None,
                        if printSlots then Some(dates) else None))
  {
    var tail := if printSlots then ListingLines(dates) else [];
    ParseTailLines(printSlots, dates);
    if added == [] && removed == [] {
      var ls := MessageLines(added, removed, reservationUrl, printSlots, dates);
      assert ls == [""] + tail;
      assert ls[1..] == tail;
    } else {
      var listing := if printSlots then Some(dates) else None;
      if added != [] {
        ParseNewDaysLines(added, removed, reservationUrl, tail, listing);
      } else {
        ParseChangedLines(removed, reservationUrl, tail, listing);
      }
    }
  }

  /** Reading a message back gives exactly the added dates, the removed dates, the URL (present
      exactly when something was added) and the listing (present exactly when it was due) it was built
      from, provided none of them holds a line break: the message has one line per added date and
      one per removed date, in list order, added before removed. */
  lemma ParseNotification(added: seq<string>, removed: seq<string>, reservationUrl: string,
                          printSlots: bool, dates: seq<string>)
    requires AllOneLine(added) && AllOneLine(removed) && OneLine(reservationUrl) && AllOneLine(dates)
    ensures ParseMessage(NotificationText(added, removed, reservationUrl, printSlots, dates))
         == Some(Report(added, removed, if added != [] then Some(reservationUrl) else None,
                        if printSlots then Some(dates) else None))
  {
    NotificationTextIsJoin(added, removed, reservationUrl, printSlots, dates);
    MessageLinesOneLine(added, removed, reservationUrl, printSlots, dates);
    SplitJoin(MessageLines(added, removed, reservationUrl, printSlots, dates));
    ParseMessageLines(added, removed, reservationUrl, printSlots, dates);
  }
}
