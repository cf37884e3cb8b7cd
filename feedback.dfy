/** The line appended to the feedback log. */
module Feedback {

  /** `",".join(xs)`: splitting it on commas gives xs back when xs is not
      empty and no element holds a comma. */
  function Join(xs: seq<string>): (s: string)
    ensures xs != [] && (forall i :: 0 <= i < |xs| ==> NoComma(xs[i])) ==> Split(s) == xs
    ensures xs == [] ==> s == ""
  {
    if xs == [] then ""
    else if |xs| == 1 then
      assert NoComma(xs[0]) ==> Split(xs[0]) == [xs[0]] by {
        if NoComma(xs[0]) { SplitNoComma(xs[0]); }
      }
      xs[0]
    else
      var rest := Join(xs[1..]);
      assert NoComma(xs[0]) ==> Split(xs[0]) == [xs[0]] by {
        if NoComma(xs[0]) { SplitNoComma(xs[0]); }
      }
      SplitComma(xs[0], rest);
      assert xs == [xs[0]] + xs[1..];
      xs[0] + "," + rest
  }

  /** The log line: the confirmed labels, the word Total, the total as the
      script formats it, and the user's note, separated by commas. It ends in
      a newline; before it, when neither the labels nor the formatted total
      hold a comma, its fields are every confirmed label (duplicates kept; a
      single empty field when there are none), then "Total", then the
      formatted total, then the fields of the note. */
  function FeedbackLine(finalLabels: seq<string>, totalText: string, note: string): (line: string)
    ensures |line| > 0 && line[|line| - 1] == '\n'
    ensures (forall i :: 0 <= i < |finalLabels| ==> NoComma(finalLabels[i])) && NoComma(totalText) ==>
      Split(line[..|line| - 1]) == (if finalLabels == [] then [""] else finalLabels) + ["Total", totalText] + Split(note)
  {
    var j := Join(finalLabels);
    var tail := totalText + "," + note;
    var body := j + "," + ("Total" + "," + tail);
    FieldsOfBody(finalLabels, totalText, note);
    DropNewline(body);
    body + "\n"
  }

  /** `s.split(",")`: the comma-separated fields of s. */
  function Split(s: string): (fields: seq<string>)
    ensures |fields| >= 1
  {
    if s == [] then [""]
    else
      var rest := Split(s[1..]);
      if s[0] == ',' then [""] + rest else [[s[0]] + rest[0]] + rest[1..]
  }

  predicate NoComma(s: string)
  {
    forall i :: 0 <= i < |s| ==> s[i] != ','
  }

  lemma {:induction false} SplitNoComma(s: string)
    requires NoComma(s)
    ensures Split(s) == [s]
  {
    if s != [] {
      SplitNoComma(s[1..]);
      assert [s[0]] + s[1..] == s;
    }
  }

  lemma {:induction false} SplitComma(a: string, b: string)
    ensures Split(a + "," + b) == Split(a) + Split(b)
  {
    if a == [] {
      assert a + "," + b == [','] + b;
      assert ([','] + b)[1..] == b;
    } else {
      assert (a + "," + b)[1..] == a[1..] + "," + b;
      SplitComma(a[1..], b);
    }
  }

  /** Removing the appended newline gives the line's body back. */
  lemma DropNewline(body: string)
    ensures (body + "\n")[..|body|] == body
  {
  }

  /** The fields of the log line without its newline. */
  lemma FieldsOfBody(finalLabels: seq<string>, totalText: string, note: string)
    ensures (forall i :: 0 <= i < |finalLabels| ==> NoComma(finalLabels[i])) && NoComma(totalText) ==>
      Split(Join(finalLabels) + "," + ("Total" + "," + (totalText + "," + note))) ==
        (if finalLabels == [] then [""] else finalLabels) + ["Total", totalText] + Split(note)
  {
    if (forall i :: 0 <= i < |finalLabels| ==> NoComma(finalLabels[i])) && NoComma(totalText) {
      var j := Join(finalLabels);
      var tail := totalText + "," + note;
      SplitComma(j, "Total" + "," + tail);
      SplitComma("Total", tail);
      SplitComma(totalText, note);
      SplitNoComma("Total");
      SplitNoComma(totalText);
      Regroup(Split(j), "Total", totalText, Split(note));
      if finalLabels == [] {
        assert Split(j) == [""];
      }
    }
  }

  /** Re-associating the field list of the line. */
  lemma Regroup(a: seq<string>, b: string, c: string, d: seq<string>)
    ensures a + ([b] + ([c] + d)) == a + [b, c] + d
  {
  }
}
