/**
 * `formatarDataBrasileira`: turns whatever an appointment carries as its
 * date into the day/month/year text shown on its card, or into one of two
 * fixed error texts. It never throws.
 */
module DateFormat {
  import opened Wrappers
  import opened JsValues
  import opened Strings

  const Unavailable := "Data indisponível"
  const Invalid := "Data inválida"

  /** What the formatter decides to show. */
  datatype Shown =
    | NoDate                                                // null or undefined
    | BadDate                                               // nothing usable
    | Localized(time: int)                                  // the platform formats this instant
    | Reassembled(day: string, month: string, year: string) // text pieces put back in Brazilian order

  /** Neither separator the fallback path splits on. */
  predicate NoSeparators(piece: string) {
    '-' !in piece && 'T' !in piece
  }

  /** The fallback for a string the platform parser rejects: the text before
    * the first 'T', split on '-', read as year, month, day. Extra pieces
    * are ignored and no piece is range-checked. */
  function Fallback(s: string): Shown {
    var datePart := Split(s, 'T')[0];
    if datePart == "" then BadDate
    else
      var parts := Split(datePart, '-');
      if |parts| >= 3 then Reassembled(parts[2], parts[1], parts[0]) else BadDate
  }

  function Classify(p: Platform, x: JsValue): (r: Shown)
    ensures r.NoDate? <==> Nullish(x)
    ensures r.Localized? ==>
      (x.DateObj? && x.time == Some(r.time)) || (x.Str? && p.parse(x.s) == Some(r.time))
    ensures (x.DateObj? && x.time.Some?) || (x.Str? && p.parse(x.s).Some?) ==> r.Localized?
    ensures r.Reassembled? ==> x.Str? && p.parse(x.s).None?
  {
    match x
    case Undefined => NoDate
    case Null => NoDate
    case DateObj(t) => if t.None? then BadDate else Localized(t.value)
    case Str(s) =>
      (match p.parse(s)
       case Some(t) => Localized(t)
       case None => Fallback(s))
    case _ => BadDate
  }

  function Text(p: Platform, shown: Shown): string {
    match shown
    case NoDate => Unavailable
    case BadDate => Invalid
    case Localized(t) => p.localeDate(t)
    case Reassembled(day, month, year) => day + "/" + month + "/" + year
  }

  /** `formatarDataBrasileira(dataInput)` */
  function FormatBrazilianDate(p: Platform, x: JsValue): string {
    Text(p, Classify(p, x))
  }

  /** Only null and undefined are "unavailable"; an invalid Date and every
    * value that is neither a Date nor a string are "invalid". */
  lemma FormatNonStrings(p: Platform, x: JsValue)
    requires !x.Str?
    ensures Nullish(x) ==> FormatBrazilianDate(p, x) == Unavailable
    ensures !Nullish(x) && !(x.DateObj? && x.time.Some?) ==> FormatBrazilianDate(p, x) == Invalid
    ensures x.DateObj? && x.time.Some? ==> FormatBrazilianDate(p, x) == p.localeDate(x.time.value)
  {
  }

  /** A date written year-month-day, followed by nothing, by a time after
    * 'T', or by further '-' pieces, comes back as day/month/year when the
    * platform rejects it. */
  lemma {:induction false} FallbackReassembles(y: string, m: string, d: string, tail: string)
    requires NoSeparators(y) && NoSeparators(m) && NoSeparators(d)
    requires tail == [] || tail[0] == 'T' || tail[0] == '-'
    ensures Fallback(y + "-" + m + "-" + d + tail) == Reassembled(d, m, y)
  {
    var ymd := y + "-" + m + "-" + d;
    assert 'T' !in ymd;
    SplitFirstPiece(ymd, tail, 'T');
    var head := Split(tail, 'T')[0];
    assert head == [] || head[0] == '-' by {
      if tail != [] && tail[0] == '-' {
        assert head == [tail[0]] + Split(tail[1..], 'T')[0];
      }
    }
    var datePart := ymd + head;
    assert Split(ymd + tail, 'T')[0] == datePart;
    assert datePart == y + ['-'] + (m + ['-'] + (d + head));
    SplitAtSeparator(y, m + ['-'] + (d + head), '-');
    SplitAtSeparator(m, d + head, '-');
    SplitFirstPiece(d, head, '-');
    assert Split(head, '-')[0] == [] by {
      if head != [] {
        assert Split(head, '-') == [""] + Split(head[1..], '-');
      }
    }
    var parts := Split(datePart, '-');
    assert parts == [y] + ([m] + Split(d + head, '-'));
    assert parts[0] == y && parts[1] == m && parts[2] == d;
  }

  /** The same through the whole formatter. */
  lemma FormatReassembles(p: Platform, y: string, m: string, d: string, tail: string)
    requires NoSeparators(y) && NoSeparators(m) && NoSeparators(d)
    requires tail == [] || tail[0] == 'T' || tail[0] == '-'
    requires p.parse(y + "-" + m + "-" + d + tail).None?
    ensures FormatBrazilianDate(p, Str(y + "-" + m + "-" + d + tail)) == d + "/" + m + "/" + y
  {
    FallbackReassembles(y, m, d, tail);
  }

  /** Conversely, a reassembled result always comes from a string that
    * starts with year-month-day, each piece free of both separators. */
  lemma {:induction false} FallbackSound(s: string, day: string, month: string, year: string)
    requires Fallback(s) == Reassembled(day, month, year)
    ensures NoSeparators(year) && NoSeparators(month) && NoSeparators(day)
    ensures year + "-" + month + "-" + day <= s
  {
    var pieces := Split(s, 'T');
    var datePart := pieces[0];
    JoinSplit(s, 'T');
    JoinStartsWithFirst(pieces, 'T');
    var parts := Split(datePart, '-');
    SplitKeepsAbsence(datePart, '-', 'T');
    JoinSplit(datePart, '-');
    var rest := Join(parts[2..], '-');
    JoinStartsWithFirst(parts[2..], '-');
    assert parts[1..][1..] == parts[2..];
    assert Join(parts, '-') == parts[0] + "-" + (parts[1] + "-" + rest);
    assert year + "-" + month + "-" + day <= datePart;
  }

  /** The time of day after 'T' never changes the fallback's result. */
  lemma {:induction false} FallbackIgnoresTime(date: string, time: string)
    ensures Fallback(date + "T" + time) == Fallback(date)
  {
    if 'T' in date {
      assert date + "T" + time == date + ("T" + time);
      SplitFirstPieceSettled(date, "T" + time, 'T');
    } else {
      SplitAtSeparator(date, time, 'T');
      SplitWithoutSeparator(date, 'T');
    }
  }

  /** The same for the whole formatter, when the platform rejects both forms. */
  lemma FormatIgnoresTime(p: Platform, date: string, time: string)
    requires p.parse(date + "T" + time).None? && p.parse(date).None?
    ensures FormatBrazilianDate(p, Str(date + "T" + time)) == FormatBrazilianDate(p, Str(date))
  {
    FallbackIgnoresTime(date, time);
  }

  /** No range check: month 13 and day 45 are passed through. */
  lemma OutOfRangeDatePassesThrough(p: Platform, s: string)
    requires s == "2024-13-45" && p.parse(s).None?
    ensures FormatBrazilianDate(p, Str(s)) == "45/13/2024"
  {
    assert s == "2024" + "-" + "13" + "-" + "45" + "";
    FormatReassembles(p, "2024", "13", "45", "");
  }

  /** Any three dash-separated words are taken for a date. */
  lemma DashedWordsReassembled(p: Platform, s: string)
    requires s == "not-a-date" && p.parse(s).None?
    ensures FormatBrazilianDate(p, Str(s)) == "date/a/not"
  {
    assert s == "not" + "-" + "a" + "-" + "date" + "";
    FormatReassembles(p, "not", "a", "date", "");
  }

  /** Extra pieces after the day are dropped. */
  lemma ExtraPiecesIgnored(p: Platform, s: string)
    requires s == "2024-03-15-09" && p.parse(s).None?
    ensures FormatBrazilianDate(p, Str(s)) == "15/03/2024"
  {
    assert s == "2024" + "-" + "03" + "-" + "15" + "-09";
    FormatReassembles(p, "2024", "03", "15", "-09");
  }

  /** An empty text before 'T' is invalid. */
  lemma EmptyDatePartInvalid(p: Platform)
    requires p.parse("T10:00").None?
    ensures FormatBrazilianDate(p, Str("T10:00")) == Invalid
  {
    assert "T10:00" == "" + ['T'] + "10:00";
    SplitAtSeparator("", "10:00", 'T');
  }
}
