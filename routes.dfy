/**
 * The `next` paths that login and verify hand back (app.py:66 and app.py:113).
 *
 * Each one is meant to be requested next, against a route whose parameters
 * are single path segments (`/Start/verify/<code>/<otp>`,
 * `/Start/bot/<auth>/<group_id>/<emoji>`). `Segments` splits a path at '/'
 * the way such a route sees it, and the lemmas show that the code or the
 * auth token lands exactly in its parameter's place.
 */
module Routes {
  import opened Codes

  /** The emoji the source writes into the suggested start path. */
  const Fire: string := "\U{1F525}"

  function VerifyPath(code: string): string {
    "/Start/verify/" + code + "/OTP"
  }

  function BotPath(auth: string): string {
    "/Start/bot/" + auth + "/GROUP_ID/" + Fire
  }

  /** The pieces of `s` between the '/' characters (`s.split('/')`). */
  function Segments(s: string): (parts: seq<string>)
    ensures |parts| >= 1
    ensures |parts| == 1 <==> '/' !in s
    decreases |s|
  {
    if s == [] then [""]
    else
      var rest := Segments(s[1..]);
      if s[0] == '/' then [""] + rest else [[s[0]] + rest[0]] + rest[1..]
  }

  lemma {:induction false} SegmentsOfPlain(x: string)
    requires '/' !in x
    ensures Segments(x) == [x]
    decreases |x|
  {
    if x != [] {
      SegmentsOfPlain(x[1..]);
      assert [x[0]] + x[1..] == x;
    }
  }

  lemma {:induction false} SegmentsSplit(x: string, y: string)
    requires '/' !in x
    ensures Segments(x + "/" + y) == [x] + Segments(y)
    decreases |x|
  {
    var s := x + "/" + y;
    if x == [] {
      assert s[1..] == y;
    } else {
      assert s[1..] == x[1..] + "/" + y;
      SegmentsSplit(x[1..], y);
      assert [x[0]] + x[1..] == x;
    }
  }

  lemma CodeHasNoSlash(code: string)
    requires IsCode(code)
    ensures '/' !in code
  {
  }

  // Kept apart from VerifyPathRoutes so that the literal is unfolded in its own small proof.
  lemma VerifyPathSpelled(code: string)
    ensures VerifyPath(code) == "" + "/" + ("Start" + "/" + ("verify" + "/" + (code + "/" + "OTP")))
  {
  }

  /** The verify path carries the code as the `<code>` segment of the verify route. */
  lemma VerifyPathRoutes(code: string)
    requires IsCode(code)
    ensures Segments(VerifyPath(code)) == ["", "Start", "verify", code, "OTP"]
  {
    CodeHasNoSlash(code);
    var t1 := code + "/" + "OTP";
    var t2 := "verify" + "/" + t1;
    var t3 := "Start" + "/" + t2;
    SegmentsOfPlain("OTP");
    SegmentsSplit(code, "OTP");
    SegmentsSplit("verify", t1);
    SegmentsSplit("Start", t2);
    SegmentsSplit("", t3);
    VerifyPathSpelled(code);
  }

  lemma BotPathTail()
    ensures Segments("GROUP_ID" + "/" + Fire) == ["GROUP_ID", Fire]
  {
    SegmentsOfPlain(Fire);
    SegmentsSplit("GROUP_ID", Fire);
  }

  // Kept apart from BotPathRoutes so that the literal is unfolded in its own small proof.
  lemma BotPathSpelled(auth: string)
    ensures BotPath(auth) == "" + "/" + ("Start" + "/" + ("bot" + "/" + (auth + "/" + ("GROUP_ID" + "/" + Fire))))
  {
  }

  /** The start path carries the auth token as the `<auth>` segment of the start route. */
  lemma BotPathRoutes(auth: string)
    requires IsCode(auth)
    ensures Segments(BotPath(auth)) == ["", "Start", "bot", auth, "GROUP_ID", Fire]
  {
    CodeHasNoSlash(auth);
    var t1 := "GROUP_ID" + "/" + Fire;
    var t2 := auth + "/" + t1;
    var t3 := "bot" + "/" + t2;
    var t4 := "Start" + "/" + t3;
    BotPathTail();
    SegmentsSplit(auth, t1);
    SegmentsSplit("bot", t2);
    SegmentsSplit("Start", t3);
    SegmentsSplit("", t4);
    BotPathSpelled(auth);
  }
}
