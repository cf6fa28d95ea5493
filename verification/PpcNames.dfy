/**
  The mnemonics of the shipped table are pairwise different.  A dictionary gives each mnemonic its opcode,
  and opcodes are different because the table is ordered by them.
 */
module PpcNames {
  import opened Wrappers
  import opened Tables
  import opened TableCheck
  import opened PpcRows

  function CharAt(name: string, i: nat): nat {
    if i < |name| then name[i] as nat else 0
  }

  /** A number that tells the mnemonics apart. */
  function Key(name: string): nat {
    5 * CharAt(name, 0) + 5 * CharAt(name, 1) + 6 * CharAt(name, 2) + 3 * CharAt(name, 3)
    + 7 * CharAt(name, 4) + 8 * CharAt(name, 5) + 4 * CharAt(name, 6) + 2 * CharAt(name, 7)
  }

  /** The opcode that goes with a mnemonic. */
  function OpcodeNamed(name: string): nat {
    Dictionary(Key(name))
  }

  function Dictionary(k: nat): nat {
    if k < 2705 then
      if k < 1977 then
        if k < 1789 then
          if k < 1635 then
            if k < 1175 then
              if k < 1030 then
                if k < 975 then 0x4800_0000 else if k < 985 then 0x4800_0002 else 0x4000_0000
              else
                if k < 1070 then 0x4800_0001 else if k < 1125 then 0x4400_0002 else 0x7C00_0378
            else
              if k < 1585 then
                if k < 1401 then 0x7C00_0008 else if k < 1567 then 0x7C00_0379 else 0x4000_0002
              else
                if k < 1612 then 0x7C00_0214 else if k < 1633 then 0x4800_0003 else 0x4000_0001
          else
            if k < 1723 then
              if k < 1710 then
                if k < 1642 then 0x7C00_0038 else if k < 1673 then 0xA800_0000 else 0x7C00_00D0
              else
                if k < 1712 then 0x4C00_0064 else if k < 1719 then 0x7C00_0000 else 0x7C00_0338
            else
              if k < 1762 then
                if k < 1743 then 0x7C00_0215 else if k < 1755 then 0x9800_0000 else 0x6000_0000
              else
                if k < 1778 then
                  if k < 1773 then 0x8800_0000 else 0x7C00_0039
                else
                  if k < 1779 then 0x7C00_0238 else 0xB000_0000
        else
          if k < 1889 then
            if k < 1839 then
              if k < 1805 then
                if k < 1792 then 0x7C00_00F8 else if k < 1799 then 0xA000_0000 else 0xB800_0000
              else
                if k < 1811 then 0x0C00_0000 else if k < 1829 then 0x7C00_00D1 else 0x7C00_0030
            else
              if k < 1867 then
                if k < 1857 then 0x7C00_0278 else if k < 1859 then 0x7C00_0339 else 0x7C00_0430
              else
                if k < 1882 then
                  if k < 1869 then 0x8000_0000 else 0x9000_0000
                else
                  if k < 1888 then 0x7C00_0014 else 0x7C00_0114
          else
            if k < 1924 then
              if k < 1916 then
                if k < 1898 then 0x7C00_00AC else if k < 1900 then 0x7C00_03AC else 0x3800_0000
              else
                if k < 1918 then 0x7C00_0239 else if k < 1923 then 0x7C00_0614 else 0x7C00_07AC
            else
              if k < 1932 then
                if k < 1927 then 0x4000_0003 else if k < 1931 then 0x7C00_00F9 else 0x7C00_022C
              else
                if k < 1967 then
                  if k < 1949 then 0x7C00_0078 else 0x7C00_07EC
                else
                  if k < 1975 then 0x7C00_0031 else 0x4C00_0020
      else
        if k < 2152 then
          if k < 2084 then
            if k < 2006 then
              if k < 1995 then
                if k < 1991 then 0x7C00_0279 else if k < 1993 then 0x7C00_0026 else 0xAC00_0000
              else
                if k < 1997 then 0x7C00_03B8 else if k < 2002 then 0x7C00_0431 else 0x7C00_02AE
            else
              if k < 2036 then
                if k < 2027 then 0x7C00_04D0 else if k < 2030 then 0x2C00_0000 else 0x4C00_0000
              else
                if k < 2054 then
                  if k < 2045 then 0x7C00_0040 else 0x7C00_02E6
                else
                  if k < 2073 then 0x7C00_0050 else 0x4C00_0382
          else
            if k < 2113 then
              if k < 2094 then
                if k < 2087 then 0x7C00_0630 else if k < 2090 then 0x7C00_04A6 else 0x7C00_03D6
              else
                if k < 2100 then 0x9C00_0000 else if k < 2103 then 0x6400_0000 else 0x7C00_01AE
            else
              if k < 2137 then
                if k < 2122 then 0x8C00_0000 else if k < 2130 then 0x7C00_00AE else 0xB400_0000
              else
                if k < 2143 then
                  if k < 2139 then 0x7C00_04AC else 0x7C00_032E
                else
                  if k < 2144 then 0xA400_0000 else 0x7C00_04AA
        else
          if k < 2272 then
            if k < 2210 then
              if k < 2166 then
                if k < 2154 then 0x7C00_022E else if k < 2157 then 0x6800_0000 else 0x7C00_01A4
              else
                if k < 2189 then 0xBC00_0000 else if k < 2204 then 0x7C00_042A else 0x7C00_0015
            else
              if k < 2227 then
                if k < 2218 then 0x7C00_0115 else if k < 2220 then 0x8400_0000 else 0x9400_0000
              else
                if k < 2240 then
                  if k < 2229 then 0x7C00_002E else 0x7C00_012E
                else
                  if k < 2254 then 0x7C00_0615 else 0x7C00_0079
          else
            if k < 2593 then
              if k < 2376 then
                if k < 2317 then 0x7000_0000 else if k < 2328 then 0x7C00_03B9 else 0x7C00_04D1
              else
                if k < 2406 then 0x7C00_0051 else if k < 2412 then 0x7C00_0631 else 0x7C00_03D7
            else
              if k < 2659 then
                if k < 2619 then 0x3000_0000 else if k < 2658 then 0x7C00_01D4 else 0x7C00_0194
              else
                if k < 2677 then
                  if k < 2665 then 0x7C00_0414 else 0x7C00_0514
                else
                  if k < 2702 then 0x4C00_0202 else 0x7C00_02E4
    else
      if k < 3060 then
        if k < 2867 then
          if k < 2775 then
            if k < 2740 then
              if k < 2730 then
                if k < 2725 then 0x3C00_0000 else if k < 2728 then 0x4C00_0420 else 0x7C00_06AC
              else
                if k < 2731 then 0x7C00_0264 else if k < 2732 then 0x4C00_0021 else 0x7C00_07A4
            else
              if k < 2766 then
                if k < 2747 then 0x7C00_006C else if k < 2761 then 0x7C00_0010 else 0x7C00_0110
              else
                if k < 2767 then 0x4C00_0342 else if k < 2771 then 0x7C00_07E4 else 0x2800_0000
          else
            if k < 2833 then
              if k < 2830 then
                if k < 2819 then 0x7C00_0120 else if k < 2827 then 0x7C00_0670 else 0x7C00_026C
              else
                if k < 2831 then 0x7C00_062C else if k < 2832 then 0x7C00_0450 else 0x7C00_0774
            else
              if k < 2849 then
                if k < 2836 then 0x7C00_02EE else if k < 2837 then 0x4C00_0242 else 0x1C00_0000
              else
                if k < 2856 then
                  if k < 2852 then 0x4C00_012C else 0x7C00_00A6
                else
                  if k < 2863 then 0x4C00_0042 else 0x7C00_036C
        else
          if k < 2937 then
            if k < 2909 then
              if k < 2882 then
                if k < 2874 then 0x7C00_07D6 else if k < 2879 then 0x7C00_0734 else 0x7C00_02A6
              else
                if k < 2899 then 0x7C00_0400 else if k < 2905 then 0x7C00_0028 else 0x7C00_042C
            else
              if k < 2922 then
                if k < 2916 then 0x7C00_0396 else if k < 2917 then 0x4C00_0182 else 0x5C00_0000
              else
                if k < 2934 then
                  if k < 2923 then 0x7C00_0124 else 0x7C00_0096
                else
                  if k < 2935 then 0x7C00_01EE else 0x7C00_01D6
          else
            if k < 2983 then
              if k < 2959 then
                if k < 2949 then 0x7C00_05AA else if k < 2953 then 0x7C00_03A6 else 0x7C00_00EE
              else
                if k < 2961 then 0x6C00_0000 else if k < 2970 then 0x3400_0000 else 0x7C00_036E
            else
              if k < 3027 then
                if k < 2987 then 0x7C00_026E else if k < 3026 then 0x7C00_01D5 else 0x7C00_0195
              else
                if k < 3042 then
                  if k < 3033 then 0x7C00_0415 else 0x7C00_0515
                else
                  if k < 3058 then 0x7C00_052A else 0x7C00_006E
      else
        if k < 3716 then
          if k < 3374 then
            if k < 3200 then
              if k < 3129 then
                if k < 3115 then 0x7C00_016E else if k < 3123 then 0x7C00_0011 else 0x7400_0000
              else
                if k < 3187 then 0x7C00_0111 else if k < 3199 then 0x7C00_0671 else 0x7C00_0451
            else
              if k < 3277 then
                if k < 3235 then 0x7C00_0775 else if k < 3242 then 0x7C00_07D7 else 0x7C00_0735
              else
                if k < 3291 then
                  if k < 3285 then 0x7C00_0397 else 0x5C00_0001
                else
                  if k < 3303 then 0x7C00_0097 else 0x7C00_01D7
          else
            if k < 3589 then
              if k < 3546 then
                if k < 3469 then 0x7C00_012D else if k < 3507 then 0x4C00_0102 else 0x7C00_05D4
              else
                if k < 3581 then 0x7C00_0594 else if k < 3586 then 0x2000_0000 else 0x4C00_01C2
            else
              if k < 3649 then
                if k < 3625 then 0x4C00_0421 else if k < 3635 then 0x7C00_01D0 else 0x7C00_0410
              else
                if k < 3691 then
                  if k < 3664 then 0x7C00_0510 else 0x7C00_01EC
                else
                  if k < 3702 then 0x7C00_05D5 else 0x7C00_0526
        else
          if k < 3900 then
            if k < 3809 then
              if k < 3772 then
                if k < 3730 then 0x7C00_0190 else if k < 3742 then 0x7C00_0595 else 0x5000_0000
              else
                if k < 3781 then 0x7C00_01E4 else if k < 3797 then 0x5400_0000 else 0x7C00_0796
            else
              if k < 3831 then
                if k < 3819 then 0x7C00_01D1 else if k < 3823 then 0x7C00_0411 else 0x7C00_05D6
              else
                if k < 3859 then
                  if k < 3833 then 0x7C00_072C else 0x7C00_0511
                else
                  if k < 3871 then 0x7C00_0016 else 0x7C00_0034
          else
            if k < 4043 then
              if k < 3965 then
                if k < 3921 then 0x7C00_0191 else if k < 3926 then 0x7C00_052C else 0x5000_0001
              else
                if k < 3981 then 0x5400_0001 else if k < 4007 then 0x7C00_0797 else 0x7C00_05D7
            else
              if k < 4160 then
                if k < 4055 then 0x7C00_0017 else if k < 4069 then 0x7C00_0035 else 0x7C00_05D0
              else
                if k < 4176 then
                  if k < 4161 then 0x7C00_0590 else 0x7C00_05D1
                else
                  if k < 4252 then 0x7C00_046C else 0x7C00_0591
  }

  /** The dictionary knows every row. */
  predicate Listed(rows: seq<Opcode>) {
    forall i :: 0 <= i < |rows| ==> OpcodeNamed(rows[i].name) == rows[i].opcode
  }

  predicate Spelled(rows: List<Row>) {
    rows.Cons? ==>
      && OpcodeNamed(rows.head.name) == Code(rows.head) < 0x1_0000_0000
      && Spelled(rows.tail)
  }

  lemma {:induction false} PrependListed(rows: List<Row>, rest: seq<Opcode>)
    requires Spelled(rows) && Listed(rest)
    ensures Listed(Prepend(rows, rest))
  {
    if rows.Cons? {
      PrependListed(rows.tail, rest);
      var e := Entry(rows.head);
      assert OpcodeNamed(e.name) == e.opcode;
    }
  }

  /** Rows with different opcodes that the dictionary knows have different names. */
  lemma ListedNames(rows: seq<Opcode>, i: nat)
    requires Listed(rows) && i < |rows|
    requires forall j, k :: 0 <= j < k < |rows| ==> rows[j].opcode < rows[k].opcode
    ensures FirstNamed(rows, rows[i].name) == Some(i)
  {
    var j := FirstNamed(rows, rows[i].name).value;
    assert rows[j].opcode == rows[i].opcode;
  }

  lemma Rows1Listed(rest: seq<Opcode>)
    requires Listed(rest)
    ensures Listed(Prepend(Rows1(), rest))
  {
    PrependListed(Rows1(), rest);
  }

  lemma Rows2Listed(rest: seq<Opcode>)
    requires Listed(rest)
    ensures Listed(Prepend(Rows2(), rest))
  {
    PrependListed(Rows2(), rest);
  }

  lemma Rows3Listed(rest: seq<Opcode>)
    requires Listed(rest)
    ensures Listed(Prepend(Rows3(), rest))
  {
    PrependListed(Rows3(), rest);
  }

  lemma Part1Listed(rest: seq<Opcode>)
    requires Listed(rest)
    ensures Listed(Part1(rest))
  {
    Rows3Listed(rest);
    Rows2Listed(Prepend(Rows3(), rest));
    Rows1Listed(Prepend(Rows2(), Prepend(Rows3(), rest)));
  }

  lemma Rows4Listed(rest: seq<Opcode>)
    requires Listed(rest)
    ensures Listed(Prepend(Rows4(), rest))
  {
    PrependListed(Rows4(), rest);
  }

  lemma Rows5Listed(rest: seq<Opcode>)
    requires Listed(rest)
    ensures Listed(Prepend(Rows5(), rest))
  {
    PrependListed(Rows5(), rest);
  }

  lemma Rows6Listed(rest: seq<Opcode>)
    requires Listed(rest)
    ensures Listed(Prepend(Rows6(), rest))
  {
    PrependListed(Rows6(), rest);
  }

  lemma Part2Listed(rest: seq<Opcode>)
    requires Listed(rest)
    ensures Listed(Part2(rest))
  {
    Rows6Listed(rest);
    Rows5Listed(Prepend(Rows6(), rest));
    Rows4Listed(Prepend(Rows5(), Prepend(Rows6(), rest)));
  }

  lemma Rows7Listed(rest: seq<Opcode>)
    requires Listed(rest)
    ensures Listed(Prepend(Rows7(), rest))
  {
    PrependListed(Rows7(), rest);
  }

  lemma Rows8Listed(rest: seq<Opcode>)
    requires Listed(rest)
    ensures Listed(Prepend(Rows8(), rest))
  {
    PrependListed(Rows8(), rest);
  }

  lemma Rows9Listed(rest: seq<Opcode>)
    requires Listed(rest)
    ensures Listed(Prepend(Rows9(), rest))
  {
    PrependListed(Rows9(), rest);
  }

  lemma Part3Listed(rest: seq<Opcode>)
    requires Listed(rest)
    ensures Listed(Part3(rest))
  {
    Rows9Listed(rest);
    Rows8Listed(Prepend(Rows9(), rest));
    Rows7Listed(Prepend(Rows8(), Prepend(Rows9(), rest)));
  }

  lemma Rows10Listed(rest: seq<Opcode>)
    requires Listed(rest)
    ensures Listed(Prepend(Rows10(), rest))
  {
    PrependListed(Rows10(), rest);
  }

  lemma Rows11Listed(rest: seq<Opcode>)
    requires Listed(rest)
    ensures Listed(Prepend(Rows11(), rest))
  {
    PrependListed(Rows11(), rest);
  }

  lemma Rows12Listed(rest: seq<Opcode>)
    requires Listed(rest)
    ensures Listed(Prepend(Rows12(), rest))
  {
    PrependListed(Rows12(), rest);
  }

  lemma Part4Listed(rest: seq<Opcode>)
    requires Listed(rest)
    ensures Listed(Part4(rest))
  {
    Rows12Listed(rest);
    Rows11Listed(Prepend(Rows12(), rest));
    Rows10Listed(Prepend(Rows11(), Prepend(Rows12(), rest)));
  }

  lemma Rows13Listed(rest: seq<Opcode>)
    requires Listed(rest)
    ensures Listed(Prepend(Rows13(), rest))
  {
    PrependListed(Rows13(), rest);
  }

  lemma Rows14Listed(rest: seq<Opcode>)
    requires Listed(rest)
    ensures Listed(Prepend(Rows14(), rest))
  {
    PrependListed(Rows14(), rest);
  }

  lemma Rows15Listed(rest: seq<Opcode>)
    requires Listed(rest)
    ensures Listed(Prepend(Rows15(), rest))
  {
    PrependListed(Rows15(), rest);
  }

  lemma Part5Listed(rest: seq<Opcode>)
    requires Listed(rest)
    ensures Listed(Part5(rest))
  {
    Rows15Listed(rest);
    Rows14Listed(Prepend(Rows15(), rest));
    Rows13Listed(Prepend(Rows14(), Prepend(Rows15(), rest)));
  }

  lemma Rows16Listed(rest: seq<Opcode>)
    requires Listed(rest)
    ensures Listed(Prepend(Rows16(), rest))
  {
    PrependListed(Rows16(), rest);
  }

  lemma Rows17Listed(rest: seq<Opcode>)
    requires Listed(rest)
    ensures Listed(Prepend(Rows17(), rest))
  {
    PrependListed(Rows17(), rest);
  }

  lemma Rows18Listed(rest: seq<Opcode>)
    requires Listed(rest)
    ensures Listed(Prepend(Rows18(), rest))
  {
    PrependListed(Rows18(), rest);
  }

  lemma Part6Listed(rest: seq<Opcode>)
    requires Listed(rest)
    ensures Listed(Part6(rest))
  {
    Rows18Listed(rest);
    Rows17Listed(Prepend(Rows18(), rest));
    Rows16Listed(Prepend(Rows17(), Prepend(Rows18(), rest)));
  }

  lemma Rows19Listed(rest: seq<Opcode>)
    requires Listed(rest)
    ensures Listed(Prepend(Rows19(), rest))
  {
    PrependListed(Rows19(), rest);
  }

  lemma Rows20Listed(rest: seq<Opcode>)
    requires Listed(rest)
    ensures Listed(Prepend(Rows20(), rest))
  {
    PrependListed(Rows20(), rest);
  }

  lemma Rows21Listed(rest: seq<Opcode>)
    requires Listed(rest)
    ensures Listed(Prepend(Rows21(), rest))
  {
    PrependListed(Rows21(), rest);
  }

  lemma Part7Listed(rest: seq<Opcode>)
    requires Listed(rest)
    ensures Listed(Part7(rest))
  {
    Rows21Listed(rest);
    Rows20Listed(Prepend(Rows21(), rest));
    Rows19Listed(Prepend(Rows20(), Prepend(Rows21(), rest)));
  }

  lemma Rows22Listed(rest: seq<Opcode>)
    requires Listed(rest)
    ensures Listed(Prepend(Rows22(), rest))
  {
    PrependListed(Rows22(), rest);
  }

  lemma Rows23Listed(rest: seq<Opcode>)
    requires Listed(rest)
    ensures Listed(Prepend(Rows23(), rest))
  {
    PrependListed(Rows23(), rest);
  }

  lemma Rows24Listed(rest: seq<Opcode>)
    requires Listed(rest)
    ensures Listed(Prepend(Rows24(), rest))
  {
    PrependListed(Rows24(), rest);
  }

  lemma Part8Listed(rest: seq<Opcode>)
    requires Listed(rest)
    ensures Listed(Part8(rest))
  {
    Rows24Listed(rest);
    Rows23Listed(Prepend(Rows24(), rest));
    Rows22Listed(Prepend(Rows23(), Prepend(Rows24(), rest)));
  }

  lemma Rows25Listed(rest: seq<Opcode>)
    requires Listed(rest)
    ensures Listed(Prepend(Rows25(), rest))
  {
    PrependListed(Rows25(), rest);
  }

  lemma Rows26Listed(rest: seq<Opcode>)
    requires Listed(rest)
    ensures Listed(Prepend(Rows26(), rest))
  {
    PrependListed(Rows26(), rest);
  }

  lemma Rows27Listed(rest: seq<Opcode>)
    requires Listed(rest)
    ensures Listed(Prepend(Rows27(), rest))
  {
    PrependListed(Rows27(), rest);
  }

  lemma Part9Listed(rest: seq<Opcode>)
    requires Listed(rest)
    ensures Listed(Part9(rest))
  {
    Rows27Listed(rest);
    Rows26Listed(Prepend(Rows27(), rest));
    Rows25Listed(Prepend(Rows26(), Prepend(Rows27(), rest)));
  }

  lemma Rows28Listed(rest: seq<Opcode>)
    requires Listed(rest)
    ensures Listed(Prepend(Rows28(), rest))
  {
    PrependListed(Rows28(), rest);
  }

  lemma Rows29Listed(rest: seq<Opcode>)
    requires Listed(rest)
    ensures Listed(Prepend(Rows29(), rest))
  {
    PrependListed(Rows29(), rest);
  }

  lemma Rows30Listed(rest: seq<Opcode>)
    requires Listed(rest)
    ensures Listed(Prepend(Rows30(), rest))
  {
    PrependListed(Rows30(), rest);
  }

  lemma Part10Listed(rest: seq<Opcode>)
    requires Listed(rest)
    ensures Listed(Part10(rest))
  {
    Rows30Listed(rest);
    Rows29Listed(Prepend(Rows30(), rest));
    Rows28Listed(Prepend(Rows29(), Prepend(Rows30(), rest)));
  }

  lemma Rows31Listed(rest: seq<Opcode>)
    requires Listed(rest)
    ensures Listed(Prepend(Rows31(), rest))
  {
    PrependListed(Rows31(), rest);
  }

  lemma Rows32Listed(rest: seq<Opcode>)
    requires Listed(rest)
    ensures Listed(Prepend(Rows32(), rest))
  {
    PrependListed(Rows32(), rest);
  }

  lemma Rows33Listed(rest: seq<Opcode>)
    requires Listed(rest)
    ensures Listed(Prepend(Rows33(), rest))
  {
    PrependListed(Rows33(), rest);
  }

  lemma Part11Listed(rest: seq<Opcode>)
    requires Listed(rest)
    ensures Listed(Part11(rest))
  {
    Rows33Listed(rest);
    Rows32Listed(Prepend(Rows33(), rest));
    Rows31Listed(Prepend(Rows32(), Prepend(Rows33(), rest)));
  }

  lemma Rows34Listed(rest: seq<Opcode>)
    requires Listed(rest)
    ensures Listed(Prepend(Rows34(), rest))
  {
    PrependListed(Rows34(), rest);
  }

  lemma Rows35Listed(rest: seq<Opcode>)
    requires Listed(rest)
    ensures Listed(Prepend(Rows35(), rest))
  {
    PrependListed(Rows35(), rest);
  }

  lemma Rows36Listed(rest: seq<Opcode>)
    requires Listed(rest)
    ensures Listed(Prepend(Rows36(), rest))
  {
    PrependListed(Rows36(), rest);
  }

  lemma Part12Listed(rest: seq<Opcode>)
    requires Listed(rest)
    ensures Listed(Part12(rest))
  {
    Rows36Listed(rest);
    Rows35Listed(Prepend(Rows36(), rest));
    Rows34Listed(Prepend(Rows35(), Prepend(Rows36(), rest)));
  }

  lemma Rows37Listed(rest: seq<Opcode>)
    requires Listed(rest)
    ensures Listed(Prepend(Rows37(), rest))
  {
    PrependListed(Rows37(), rest);
  }

  lemma Rows38Listed(rest: seq<Opcode>)
    requires Listed(rest)
    ensures Listed(Prepend(Rows38(), rest))
  {
    PrependListed(Rows38(), rest);
  }

  lemma Rows39Listed(rest: seq<Opcode>)
    requires Listed(rest)
    ensures Listed(Prepend(Rows39(), rest))
  {
    PrependListed(Rows39(), rest);
  }

  lemma Part13Listed(rest: seq<Opcode>)
    requires Listed(rest)
    ensures Listed(Part13(rest))
  {
    Rows39Listed(rest);
    Rows38Listed(Prepend(Rows39(), rest));
    Rows37Listed(Prepend(Rows38(), Prepend(Rows39(), rest)));
  }

  lemma Rows40Listed(rest: seq<Opcode>)
    requires Listed(rest)
    ensures Listed(Prepend(Rows40(), rest))
  {
    PrependListed(Rows40(), rest);
  }

  lemma Rows41Listed(rest: seq<Opcode>)
    requires Listed(rest)
    ensures Listed(Prepend(Rows41(), rest))
  {
    PrependListed(Rows41(), rest);
  }

  lemma Rows42Listed(rest: seq<Opcode>)
    requires Listed(rest)
    ensures Listed(Prepend(Rows42(), rest))
  {
    PrependListed(Rows42(), rest);
  }

  lemma Part14Listed(rest: seq<Opcode>)
    requires Listed(rest)
    ensures Listed(Part14(rest))
  {
    Rows42Listed(rest);
    Rows41Listed(Prepend(Rows42(), rest));
    Rows40Listed(Prepend(Rows41(), Prepend(Rows42(), rest)));
  }

  lemma Rows43Listed(rest: seq<Opcode>)
    requires Listed(rest)
    ensures Listed(Prepend(Rows43(), rest))
  {
    PrependListed(Rows43(), rest);
  }

  lemma Rows44Listed(rest: seq<Opcode>)
    requires Listed(rest)
    ensures Listed(Prepend(Rows44(), rest))
  {
    PrependListed(Rows44(), rest);
  }

  lemma Rows45Listed(rest: seq<Opcode>)
    requires Listed(rest)
    ensures Listed(Prepend(Rows45(), rest))
  {
    PrependListed(Rows45(), rest);
  }

  lemma Part15Listed(rest: seq<Opcode>)
    requires Listed(rest)
    ensures Listed(Part15(rest))
  {
    Rows45Listed(rest);
    Rows44Listed(Prepend(Rows45(), rest));
    Rows43Listed(Prepend(Rows44(), Prepend(Rows45(), rest)));
  }

  lemma Rows46Listed(rest: seq<Opcode>)
    requires Listed(rest)
    ensures Listed(Prepend(Rows46(), rest))
  {
    PrependListed(Rows46(), rest);
  }

  lemma Rows47Listed(rest: seq<Opcode>)
    requires Listed(rest)
    ensures Listed(Prepend(Rows47(), rest))
  {
    PrependListed(Rows47(), rest);
  }

  lemma Rows48Listed(rest: seq<Opcode>)
    requires Listed(rest)
    ensures Listed(Prepend(Rows48(), rest))
  {
    PrependListed(Rows48(), rest);
  }

  lemma Part16Listed(rest: seq<Opcode>)
    requires Listed(rest)
    ensures Listed(Part16(rest))
  {
    Rows48Listed(rest);
    Rows47Listed(Prepend(Rows48(), rest));
    Rows46Listed(Prepend(Rows47(), Prepend(Rows48(), rest)));
  }

  lemma Rows49Listed(rest: seq<Opcode>)
    requires Listed(rest)
    ensures Listed(Prepend(Rows49(), rest))
  {
    PrependListed(Rows49(), rest);
  }

  lemma Rows50Listed(rest: seq<Opcode>)
    requires Listed(rest)
    ensures Listed(Prepend(Rows50(), rest))
  {
    PrependListed(Rows50(), rest);
  }

  lemma Rows51Listed(rest: seq<Opcode>)
    requires Listed(rest)
    ensures Listed(Prepend(Rows51(), rest))
  {
    PrependListed(Rows51(), rest);
  }

  lemma Part17Listed(rest: seq<Opcode>)
    requires Listed(rest)
    ensures Listed(Part17(rest))
  {
    Rows51Listed(rest);
    Rows50Listed(Prepend(Rows51(), rest));
    Rows49Listed(Prepend(Rows50(), Prepend(Rows51(), rest)));
  }

  lemma Rows52Listed(rest: seq<Opcode>)
    requires Listed(rest)
    ensures Listed(Prepend(Rows52(), rest))
  {
    PrependListed(Rows52(), rest);
  }

  lemma Part18Listed(rest: seq<Opcode>)
    requires Listed(rest)
    ensures Listed(Part18(rest))
  {
    Rows52Listed(rest);
  }

  lemma OpcodeRowsListed(none: seq<Opcode>)
    requires none == []
    ensures Listed(OpcodeRows())
  {
    Part18Listed(none);
    var part18 := Part18(none);
    Part17Listed(part18);
    var part17 := Part17(part18);
    Part16Listed(part17);
    var part16 := Part16(part17);
    Part15Listed(part16);
    var part15 := Part15(part16);
    Part14Listed(part15);
    var part14 := Part14(part15);
    Part13Listed(part14);
    var part13 := Part13(part14);
    Part12Listed(part13);
    var part12 := Part12(part13);
    Part11Listed(part12);
    var part11 := Part11(part12);
    Part10Listed(part11);
    var part10 := Part10(part11);
    Part9Listed(part10);
    var part9 := Part9(part10);
    Part8Listed(part9);
    var part8 := Part8(part9);
    Part7Listed(part8);
    var part7 := Part7(part8);
    Part6Listed(part7);
    var part6 := Part6(part7);
    Part5Listed(part6);
    var part5 := Part5(part6);
    Part4Listed(part5);
    var part4 := Part4(part5);
    Part3Listed(part4);
    var part3 := Part3(part4);
    Part2Listed(part3);
    var part2 := Part2(part3);
    Part1Listed(part2);
    var part1 := Part1(part2);
    assert part1 == OpcodeRows();
  }
}
