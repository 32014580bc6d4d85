/**
 * The card, CVV and mask examples from the repository's unit tests, proved on the model.
 * The card examples go through a sum read from the right of the payload, which Dafny
 * evaluates on a literal without reversing it.
 */
module CommonMethodsExamples {
  import opened Wrappers
  import opened Strings
  import opened CommonMethods

  /** The text contributions of the last `n` characters of `p`, the rightmost at position 1. */
  function RightContributionSum(p: string, n: nat): int
    requires n <= |p|
  {
    if n == 0 then 0
    else RightContributionSum(p, n - 1) + TextValue(Transform(CharValue(p[|p| - n]), n))
  }

  lemma {:induction false} RightContributionSumOfMirror(rev: string, p: string, n: nat)
    requires |rev| == |p| && n <= |p|
    requires forall i | 0 <= i < |p| :: rev[i] == p[|p| - 1 - i]
    ensures ContributionSum(rev, n) == RightContributionSum(p, n)
  {
    if n > 0 {
      RightContributionSumOfMirror(rev, p, n - 1);
      assert rev[n - 1] == p[|p| - n];
    }
  }

  /** The check on a string whose first character is not blank settles on the right-read sum. */
  lemma CardCheckByRightSum(s: string, total: int)
    requires |s| >= 1 && !IsWhiteSpace(s[0])
    requires RightContributionSum(s[..|s| - 1], |s| - 1) == total
    ensures CardNumberValid(Some(s)) <==> CsRemainder(total, 10) == 10 - CharValue(s[|s| - 1])
  {
    var p := s[..|s| - 1];
    var rev := Reversed(p);
    RightContributionSumOfMirror(rev, p, |p|);
    CalculatedTextSum(rev, |rev|);
    assert rev[..|rev|] == rev;
    CardCheckByTextSum(s, total);
  }

  lemma CardCheckByTextSum(s: string, total: int)
    requires |s| >= 1 && !IsWhiteSpace(s[0])
    requires TextSum(CalculatedText(Reversed(s[..|s| - 1]))) == total
    ensures CardNumberValid(Some(s)) <==> CsRemainder(total, 10) == 10 - CharValue(s[|s| - 1])
  {
    assert !IsNullOrWhiteSpace(Some(s));
    CardCheckBySum(s, total);
  }

  lemma ValidVector1()
    ensures CardNumberValid(Some("4916132996393639"))
  {
    var s, p := "4916132996393639", "491613299639363";
    assert s[..|s| - 1] == p;
    assert RightContributionSum(p, 1) == 6;
    assert RightContributionSum(p, 2) == 12;
    assert RightContributionSum(p, 3) == 18;
    assert RightContributionSum(p, 4) == 27;
    assert RightContributionSum(p, 5) == 33;
    assert RightContributionSum(p, 6) == 39;
    assert RightContributionSum(p, 7) == 48;
    assert RightContributionSum(p, 8) == 57;
    assert RightContributionSum(p, 9) == 61;
    assert RightContributionSum(p, 10) == 64;
    assert RightContributionSum(p, 11) == 66;
    assert RightContributionSum(p, 12) == 72;
    assert RightContributionSum(p, 13) == 74;
    assert RightContributionSum(p, 14) == 83;
    CardCheckByRightSum(s, 91);
  }

  lemma ValidVector2()
    ensures CardNumberValid(Some("6011527216256475"))
  {
    var s, p := "6011527216256475", "601152721625647";
    assert s[..|s| - 1] == p;
    assert RightContributionSum(p, 1) == 5;
    assert RightContributionSum(p, 2) == 9;
    assert RightContributionSum(p, 3) == 12;
    assert RightContributionSum(p, 4) == 17;
    assert RightContributionSum(p, 5) == 21;
    assert RightContributionSum(p, 6) == 27;
    assert RightContributionSum(p, 7) == 29;
    assert RightContributionSum(p, 8) == 31;
    assert RightContributionSum(p, 9) == 36;
    assert RightContributionSum(p, 10) == 38;
    assert RightContributionSum(p, 11) == 39;
    assert RightContributionSum(p, 12) == 40;
    assert RightContributionSum(p, 13) == 42;
    assert RightContributionSum(p, 14) == 42;
    CardCheckByRightSum(s, 45);
  }

  lemma ValidVector3()
    ensures CardNumberValid(Some("4913001810469912"))
  {
    var s, p := "4913001810469912", "491300181046991";
    assert s[..|s| - 1] == p;
    assert RightContributionSum(p, 1) == 2;
    assert RightContributionSum(p, 2) == 11;
    assert RightContributionSum(p, 3) == 20;
    assert RightContributionSum(p, 4) == 26;
    assert RightContributionSum(p, 5) == 34;
    assert RightContributionSum(p, 6) == 34;
    assert RightContributionSum(p, 7) == 36;
    assert RightContributionSum(p, 8) == 44;
    assert RightContributionSum(p, 9) == 46;
    assert RightContributionSum(p, 10) == 46;
    assert RightContributionSum(p, 11) == 46;
    assert RightContributionSum(p, 12) == 49;
    assert RightContributionSum(p, 13) == 51;
    assert RightContributionSum(p, 14) == 60;
    CardCheckByRightSum(s, 68);
  }

  lemma ValidVector4()
    ensures CardNumberValid(Some("375189682508716"))
  {
    var s, p := "375189682508716", "37518968250871";
    assert s[..|s| - 1] == p;
    assert RightContributionSum(p, 1) == 2;
    assert RightContributionSum(p, 2) == 9;
    assert RightContributionSum(p, 3) == 16;
    assert RightContributionSum(p, 4) == 16;
    assert RightContributionSum(p, 5) == 17;
    assert RightContributionSum(p, 6) == 19;
    assert RightContributionSum(p, 7) == 26;
    assert RightContributionSum(p, 8) == 32;
    assert RightContributionSum(p, 9) == 41;
    assert RightContributionSum(p, 10) == 49;
    assert RightContributionSum(p, 11) == 51;
    assert RightContributionSum(p, 12) == 56;
    assert RightContributionSum(p, 13) == 61;
    CardCheckByRightSum(s, 64);
  }

  lemma ValidVector5()
    ensures CardNumberValid(Some("5515928257947837"))
  {
    var s, p := "5515928257947837", "551592825794783";
    assert s[..|s| - 1] == p;
    assert RightContributionSum(p, 1) == 6;
    assert RightContributionSum(p, 2) == 14;
    assert RightContributionSum(p, 3) == 19;
    assert RightContributionSum(p, 4) == 23;
    assert RightContributionSum(p, 5) == 32;
    assert RightContributionSum(p, 6) == 39;
    assert RightContributionSum(p, 7) == 40;
    assert RightContributionSum(p, 8) == 42;
    assert RightContributionSum(p, 9) == 49;
    assert RightContributionSum(p, 10) == 51;
    assert RightContributionSum(p, 11) == 60;
    assert RightContributionSum(p, 12) == 65;
    assert RightContributionSum(p, 13) == 67;
    assert RightContributionSum(p, 14) == 72;
    CardCheckByRightSum(s, 73);
  }

  lemma ValidVector6()
    ensures CardNumberValid(Some("5018820917911893"))
  {
    var s, p := "5018820917911893", "501882091791189";
    assert s[..|s| - 1] == p;
    assert RightContributionSum(p, 1) == 9;
    assert RightContributionSum(p, 2) == 17;
    assert RightContributionSum(p, 3) == 19;
    assert RightContributionSum(p, 4) == 20;
    assert RightContributionSum(p, 5) == 29;
    assert RightContributionSum(p, 6) == 36;
    assert RightContributionSum(p, 7) == 38;
    assert RightContributionSum(p, 8) == 47;
    assert RightContributionSum(p, 9) == 47;
    assert RightContributionSum(p, 10) == 49;
    assert RightContributionSum(p, 11) == 56;
    assert RightContributionSum(p, 12) == 64;
    assert RightContributionSum(p, 13) == 66;
    assert RightContributionSum(p, 14) == 66;
    CardCheckByRightSum(s, 67);
  }

  lemma ValidVector7()
    ensures CardNumberValid(Some("6378947078895243"))
  {
    var s, p := "6378947078895243", "637894707889524";
    assert s[..|s| - 1] == p;
    assert RightContributionSum(p, 1) == 8;
    assert RightContributionSum(p, 2) == 10;
    assert RightContributionSum(p, 3) == 11;
    assert RightContributionSum(p, 4) == 20;
    assert RightContributionSum(p, 5) == 27;
    assert RightContributionSum(p, 6) == 35;
    assert RightContributionSum(p, 7) == 40;
    assert RightContributionSum(p, 8) == 40;
    assert RightContributionSum(p, 9) == 45;
    assert RightContributionSum(p, 10) == 49;
    assert RightContributionSum(p, 11) == 58;
    assert RightContributionSum(p, 12) == 66;
    assert RightContributionSum(p, 13) == 71;
    assert RightContributionSum(p, 14) == 74;
    CardCheckByRightSum(s, 77);
  }

  lemma InvalidVector1()
    ensures !CardNumberValid(Some("4916132393639"))
  {
    var s, p := "4916132393639", "491613239363";
    assert s[..|s| - 1] == p;
    assert RightContributionSum(p, 1) == 6;
    assert RightContributionSum(p, 2) == 12;
    assert RightContributionSum(p, 3) == 18;
    assert RightContributionSum(p, 4) == 27;
    assert RightContributionSum(p, 5) == 33;
    assert RightContributionSum(p, 6) == 35;
    assert RightContributionSum(p, 7) == 41;
    assert RightContributionSum(p, 8) == 42;
    assert RightContributionSum(p, 9) == 45;
    assert RightContributionSum(p, 10) == 46;
    assert RightContributionSum(p, 11) == 55;
    CardCheckByRightSum(s, 59);
  }

  lemma InvalidVector2()
    ensures !CardNumberValid(Some("6011527215647565"))
  {
    var s, p := "6011527215647565", "601152721564756";
    assert s[..|s| - 1] == p;
    assert RightContributionSum(p, 1) == 3;
    assert RightContributionSum(p, 2) == 8;
    assert RightContributionSum(p, 3) == 13;
    assert RightContributionSum(p, 4) == 17;
    assert RightContributionSum(p, 5) == 20;
    assert RightContributionSum(p, 6) == 25;
    assert RightContributionSum(p, 7) == 27;
    assert RightContributionSum(p, 8) == 29;
    assert RightContributionSum(p, 9) == 34;
    assert RightContributionSum(p, 10) == 36;
    assert RightContributionSum(p, 11) == 37;
    assert RightContributionSum(p, 12) == 38;
    assert RightContributionSum(p, 13) == 40;
    assert RightContributionSum(p, 14) == 40;
    CardCheckByRightSum(s, 43);
  }

  lemma InvalidVector3()
    ensures !CardNumberValid(Some("4913001810412"))
  {
    var s, p := "4913001810412", "491300181041";
    assert s[..|s| - 1] == p;
    assert RightContributionSum(p, 1) == 2;
    assert RightContributionSum(p, 2) == 6;
    assert RightContributionSum(p, 3) == 6;
    assert RightContributionSum(p, 4) == 7;
    assert RightContributionSum(p, 5) == 14;
    assert RightContributionSum(p, 6) == 15;
    assert RightContributionSum(p, 7) == 15;
    assert RightContributionSum(p, 8) == 15;
    assert RightContributionSum(p, 9) == 21;
    assert RightContributionSum(p, 10) == 22;
    assert RightContributionSum(p, 11) == 31;
    CardCheckByRightSum(s, 35);
  }

  lemma InvalidVector4()
    ensures !CardNumberValid(Some("3751896825016"))
  {
    var s, p := "3751896825016", "375189682501";
    assert s[..|s| - 1] == p;
    assert RightContributionSum(p, 1) == 2;
    assert RightContributionSum(p, 2) == 2;
    assert RightContributionSum(p, 3) == 3;
    assert RightContributionSum(p, 4) == 5;
    assert RightContributionSum(p, 5) == 12;
    assert RightContributionSum(p, 6) == 18;
    assert RightContributionSum(p, 7) == 27;
    assert RightContributionSum(p, 8) == 35;
    assert RightContributionSum(p, 9) == 37;
    assert RightContributionSum(p, 10) == 42;
    assert RightContributionSum(p, 11) == 47;
    CardCheckByRightSum(s, 50);
  }

  lemma InvalidVector5()
    ensures !CardNumberValid(Some("5515928257947835437"))
  {
    var s, p := "5515928257947835437", "551592825794783543";
    assert s[..|s| - 1] == p;
    assert RightContributionSum(p, 1) == 6;
    assert RightContributionSum(p, 2) == 10;
    assert RightContributionSum(p, 3) == 11;
    assert RightContributionSum(p, 4) == 14;
    assert RightContributionSum(p, 5) == 21;
    assert RightContributionSum(p, 6) == 28;
    assert RightContributionSum(p, 7) == 36;
    assert RightContributionSum(p, 8) == 45;
    assert RightContributionSum(p, 9) == 50;
    assert RightContributionSum(p, 10) == 55;
    assert RightContributionSum(p, 11) == 59;
    assert RightContributionSum(p, 12) == 67;
    assert RightContributionSum(p, 13) == 71;
    assert RightContributionSum(p, 14) == 80;
    assert RightContributionSum(p, 15) == 81;
    assert RightContributionSum(p, 16) == 82;
    assert RightContributionSum(p, 17) == 83;
    CardCheckByRightSum(s, 88);
  }

  lemma InvalidVector6()
    ensures !CardNumberValid(Some("501882091791189553"))
  {
    var s, p := "501882091791189553", "50188209179118955";
    assert s[..|s| - 1] == p;
    assert RightContributionSum(p, 1) == 1;
    assert RightContributionSum(p, 2) == 6;
    assert RightContributionSum(p, 3) == 15;
    assert RightContributionSum(p, 4) == 23;
    assert RightContributionSum(p, 5) == 25;
    assert RightContributionSum(p, 6) == 26;
    assert RightContributionSum(p, 7) == 35;
    assert RightContributionSum(p, 8) == 42;
    assert RightContributionSum(p, 9) == 44;
    assert RightContributionSum(p, 10) == 53;
    assert RightContributionSum(p, 11) == 53;
    assert RightContributionSum(p, 12) == 55;
    assert RightContributionSum(p, 13) == 62;
    assert RightContributionSum(p, 14) == 70;
    assert RightContributionSum(p, 15) == 72;
    assert RightContributionSum(p, 16) == 72;
    CardCheckByRightSum(s, 73);
  }

  lemma InvalidVector7()
    ensures !CardNumberValid(Some("6378947078895243444333"))
  {
    var s, p := "6378947078895243444333", "637894707889524344433";
    assert s[..|s| - 1] == p;
    assert RightContributionSum(p, 1) == 6;
    assert RightContributionSum(p, 2) == 9;
    assert RightContributionSum(p, 3) == 17;
    assert RightContributionSum(p, 4) == 21;
    assert RightContributionSum(p, 5) == 29;
    assert RightContributionSum(p, 6) == 32;
    assert RightContributionSum(p, 7) == 40;
    assert RightContributionSum(p, 8) == 42;
    assert RightContributionSum(p, 9) == 43;
    assert RightContributionSum(p, 10) == 52;
    assert RightContributionSum(p, 11) == 59;
    assert RightContributionSum(p, 12) == 67;
    assert RightContributionSum(p, 13) == 72;
    assert RightContributionSum(p, 14) == 72;
    assert RightContributionSum(p, 15) == 77;
    assert RightContributionSum(p, 16) == 81;
    assert RightContributionSum(p, 17) == 90;
    assert RightContributionSum(p, 18) == 98;
    assert RightContributionSum(p, 19) == 103;
    assert RightContributionSum(p, 20) == 106;
    CardCheckByRightSum(s, 109);
  }

  lemma InvalidVector8()
    ensures !CardNumberValid(Some("637894fdssdf95243444333"))
  {
    var s, p := "637894fdssdf95243444333", "637894fdssdf9524344433";
    assert s[..|s| - 1] == p;
    assert RightContributionSum(p, 1) == 6;
    assert RightContributionSum(p, 2) == 9;
    assert RightContributionSum(p, 3) == 17;
    assert RightContributionSum(p, 4) == 21;
    assert RightContributionSum(p, 5) == 29;
    assert RightContributionSum(p, 6) == 32;
    assert RightContributionSum(p, 7) == 40;
    assert RightContributionSum(p, 8) == 42;
    assert RightContributionSum(p, 9) == 43;
    assert RightContributionSum(p, 10) == 52;
    assert TextValue(99) == 18;
    assert RightContributionSum(p, 11) == 70;
    assert TextValue(52) == 7;
    assert RightContributionSum(p, 12) == 77;
    assert TextValue(125) == 8;
    assert RightContributionSum(p, 13) == 85;
    assert TextValue(67) == 13;
    assert RightContributionSum(p, 14) == 98;
    assert TextValue(95) == 14;
    assert RightContributionSum(p, 15) == 112;
    assert TextValue(54) == 9;
    assert RightContributionSum(p, 16) == 121;
    assert RightContributionSum(p, 17) == 129;
    assert RightContributionSum(p, 18) == 138;
    assert RightContributionSum(p, 19) == 145;
    assert RightContributionSum(p, 20) == 152;
    assert RightContributionSum(p, 21) == 158;
    CardCheckByRightSum(s, 164);
  }

  lemma InvalidVector9()
    ensures !CardNumberValid(Some("637894gfddfg444333"))
  {
    var s, p := "637894gfddfg444333", "637894gfddfg44433";
    assert s[..|s| - 1] == p;
    assert RightContributionSum(p, 1) == 6;
    assert RightContributionSum(p, 2) == 9;
    assert RightContributionSum(p, 3) == 17;
    assert RightContributionSum(p, 4) == 21;
    assert RightContributionSum(p, 5) == 29;
    assert TextValue(55) == 10;
    assert RightContributionSum(p, 6) == 39;
    assert TextValue(99) == 18;
    assert RightContributionSum(p, 7) == 57;
    assert TextValue(52) == 7;
    assert RightContributionSum(p, 8) == 64;
    assert TextValue(95) == 14;
    assert RightContributionSum(p, 9) == 78;
    assert TextValue(54) == 9;
    assert RightContributionSum(p, 10) == 87;
    assert TextValue(101) == 2;
    assert RightContributionSum(p, 11) == 89;
    assert RightContributionSum(p, 12) == 93;
    assert RightContributionSum(p, 13) == 102;
    assert RightContributionSum(p, 14) == 110;
    assert RightContributionSum(p, 15) == 115;
    assert RightContributionSum(p, 16) == 118;
    CardCheckByRightSum(s, 121);
  }

  lemma InvalidVector10()
    ensures !CardNumberValid(Some("fdsfshhisjdofsdf"))
  {
    var s, p := "fdsfshhisjdofsdf", "fdsfshhisjdofsd";
    assert s[..|s| - 1] == p;
    assert TextValue(95) == 14;
    assert RightContributionSum(p, 1) == 14;
    assert TextValue(67) == 13;
    assert RightContributionSum(p, 2) == 27;
    assert TextValue(99) == 18;
    assert RightContributionSum(p, 3) == 45;
    assert TextValue(63) == 9;
    assert RightContributionSum(p, 4) == 54;
    assert TextValue(95) == 14;
    assert RightContributionSum(p, 5) == 68;
    assert TextValue(58) == 13;
    assert RightContributionSum(p, 6) == 81;
    assert TextValue(125) == 8;
    assert RightContributionSum(p, 7) == 89;
    assert TextValue(57) == 12;
    assert RightContributionSum(p, 8) == 101;
    assert TextValue(103) == 4;
    assert RightContributionSum(p, 9) == 105;
    assert TextValue(56) == 11;
    assert RightContributionSum(p, 10) == 116;
    assert TextValue(125) == 8;
    assert RightContributionSum(p, 11) == 124;
    assert TextValue(54) == 9;
    assert RightContributionSum(p, 12) == 133;
    assert TextValue(125) == 8;
    assert RightContributionSum(p, 13) == 141;
    assert TextValue(52) == 7;
    assert RightContributionSum(p, 14) == 148;
    assert TextValue(99) == 18;
    CardCheckByRightSum(s, 166);
  }

  lemma CvvExamples()
    ensures IsCvvValid("323") && IsCvvValid("4432")
    ensures !IsCvvValid("23") && !IsCvvValid("43242")
    ensures !IsCvvValid("23f") && !IsCvvValid("43s4")
  {
    assert !IsDigit("23f"[2]);
    assert !IsDigit("43s4"[2]);
  }

  lemma MaskExamples()
    ensures Mask(Some("43532"), 4) == Some("*3532")
    ensures Mask(Some("4353243532"), 3) == Some("*******532")
    ensures Mask(Some("4352"), 4) == Some("4352") && Mask(Some("432"), 4) == Some("432")
    ensures Mask(None, 4) == None
  {
    assert Stars(1) + "43532"[1..] == "*3532";
    assert Stars(7) + "4353243532"[7..] == "*******532";
  }

  /** The card number of the validator's all-invalid example passes the check. */
  lemma ValidationExampleCard()
    ensures CardNumberValid(Some("11223344"))
  {
    var s, p := "11223344", "1122334";
    assert s[..|s| - 1] == p;
    assert RightContributionSum(p, 1) == 8;
    assert RightContributionSum(p, 2) == 11;
    assert RightContributionSum(p, 3) == 17;
    assert RightContributionSum(p, 4) == 19;
    assert RightContributionSum(p, 5) == 23;
    assert RightContributionSum(p, 6) == 24;
    CardCheckByRightSum(s, 26);
  }
}
