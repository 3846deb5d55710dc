/**
 The server's two static buffers: the command being parsed and the response being
 collected. Numbers are printed and parsed digit by digit as the server does it, and
 whatever is stored for the response reaches the client in order, however it is cut
 into sends.
 */
module ServerBuffers {
  import opened Basics
  import opened Arith
  import opened ServerText

  const SND_RSP_LEN := 256

  // ---------------------------------------------------------------- responses

  // Decimal digits beyond the tenth and hexadecimal digits beyond the eighth do not exist.
  function HexText(d: nat, v: nat): string {
    Number(16, if d > 8 then 8 else d, v)
  }

  // What the response takes of a text: all of it, or what still fits if the channel is down.
  function Taken(up: bool, si: nat, t: string): string
    requires si <= SND_RSP_LEN
  {
    if up then t else t[..Min(|t|, SND_RSP_LEN - si)]
  }

  lemma TakenJoin(up: bool, si: nat, s: string, si1: nat, t: string)
    requires si <= SND_RSP_LEN && si1 <= SND_RSP_LEN && (!up ==> si1 == si + |Taken(up, si, s)|)
    ensures Taken(up, si, s + t) == Taken(up, si, s) + Taken(up, si1, t)
  {
    if !up {
      var k := Min(|s + t|, SND_RSP_LEN - si);
      if k <= |s| {
        assert (s + t)[..k] == s[..k] + t[..0];
      } else {
        assert (s + t)[..k] == s + t[..k - |s|];
      }
    }
  }

  class RspBuffer {
    const sndRsp: array<char>
    var si: nat
    var up: bool              // whether the channel still takes data
    var sent: string          // what the channel took

    ghost predicate Valid()
      reads this
    {
      sndRsp.Length == SND_RSP_LEN && si <= SND_RSP_LEN
    }

    // Everything stored since the beginning.
    ghost function Stored(): string
      requires Valid()
      reads this, sndRsp
    {
      sent + sndRsp[..si]
    }

    // The text t has been stored, as far as possible, since there were si0 characters in
    // the buffer and `was` was all that was stored.
    ghost predicate Took(was: string, si0: nat, t: string)
      requires Valid() && si0 <= SND_RSP_LEN
      reads this, sndRsp
    {
      Stored() == was + Taken(up, si0, t) && (!up ==> si == si0 + |Taken(up, si0, t)|)
    }

    constructor ()
      ensures Valid() && fresh(sndRsp) && Stored() == "" && up && sent == ""
    {
      sndRsp := new char[SND_RSP_LEN];
      si, up, sent := 0, true, "";
    }

    method FlushRsp() returns (ok: bool)
      requires Valid()
      modifies this`si, this`sent
      ensures Valid() && Stored() == old(Stored())
      ensures ok <==> up || old(si) == 0
      ensures if ok then si == 0 && sent == old(Stored()) else sent == old(sent) && si == old(si)
    {
      if si > 0 {
        if !up { return false; }
        sent := sent + sndRsp[..si];
        si := 0;
      }
      return true;
    }

    // A character is lost only if the buffer is full and cannot be sent.
    method StoreRspCh(c: char) returns (ok: bool)
      requires Valid()
      modifies this`si, this`sent, sndRsp
      ensures Valid()
      ensures ok <==> up || old(si) < SND_RSP_LEN
      ensures Stored() == if ok then old(Stored()) + [c] else old(Stored())
      ensures Took(old(Stored()), old(si), [c])
    {
      if si == SND_RSP_LEN {
        ok := FlushRsp();
        if !ok {
          assert Stored() + [c][..0] == Stored();
          return false;
        }
      }
      assert [c][..1] == [c];
      ghost var before := sndRsp[..si];
      sndRsp[si] := c;
      si := si + 1;
      assert sndRsp[..si] == before + [c];
      assert (sent + before) + [c] == sent + (before + [c]);
      return true;
    }

    // The d lowest digits, taken from the top of a machine word that is shifted left.
    method StoreHexN(d: nat, v: nat) returns (ok: bool)
      requires Valid() && v < WORD
      modifies this`si, this`sent, sndRsp
      ensures Valid() && (up ==> ok)
      ensures ok ==> Stored() == old(Stored()) + HexText(d, v)
      ensures Took(old(Stored()), old(si), HexText(d, v))
    {
      var i, val := 8, v;
      ghost var was, all := Stored(), HexText(d, v);
      TopOfWord(v);
      assert was + all[..0] == was;
      while true
        invariant 1 <= i <= 8 && Valid()
        invariant val == Low(16, i, v) * Pow(16, 8 - i)
        invariant Stored() == was + all[..Done(d, i)] && (!up ==> si == old(si) + Done(d, i))
        decreases i
      {
        ShiftWord(v, i);
        if d >= i {
          var digit := val / 0x1000_0000;
          var c := if digit >= 10 then (digit - 10) as char + 'A' else digit as char + '0';
          NumberAt(16, |all|, v, |all| - i);
          NextStored(was, all, Done(d, i), c);
          ok := StoreRspCh(c);
          if !ok { return false; }
        }
        i := i - 1;
        if i == 0 {
          assert all[..Done(d, 0)] == all;
          return true;
        }
        val := val * 16 % WORD;
      }
    }

    method StoreDecN(d: nat, v: nat) returns (ok: bool)
      requires Valid() && v < WORD
      modifies this`si, this`sent, sndRsp
      ensures Valid() && (ok ==> 1 <= d <= 10) && (up && 1 <= d <= 10 ==> ok)
      ensures ok ==> Stored() == old(Stored()) + Number(10, d, v)
      ensures !(1 <= d <= 10) ==> Stored() == old(Stored())
    {
      if d < 1 || d > 10 { return false; }
      var k, val := 9, v;        // k is the power of ten to divide by
      ghost var was, all := Stored(), Number(10, d, v);
      BelowTen(v);
      assert was + all[..0] == was;
      while k > 0
        invariant 0 <= k <= 9 && Valid()
        invariant val == Low(10, k + 1, v)
        invariant Stored() == was + all[..Printed(d, k + 1)]
        decreases k
      {
        var p := TenTo(k);
        DropTop(v, k);
        var digit := val / p;
        val := val % p;
        if k < d {
          NumberAt(10, d, v, d - 1 - k);
          NextStored(was, all, Printed(d, k + 1), DigitChar(digit));
          ok := StoreRspCh(digit as char + '0');
          if !ok { return false; }
        }
        k := k - 1;
      }
      NumberAt(10, d, v, d - 1);
      LastDigit(v);
      assert all[..Printed(d, 1)] + [DigitChar(val)] == all;
      ok := StoreRspCh(val as char + '0');
      assert was + all[..Printed(d, 1)] + [DigitChar(val)] == was + all;
    }
  }

  lemma NextStored(was: string, all: string, n: nat, c: char)
    requires n < |all| && all[n] == c
    ensures (was + all[..n]) + [c] == was + all[..n + 1]
  {
  }

  // How many digits are printed before the one at place i, counted from 1 at the end.
  function Done(d: nat, i: nat): nat {
    var n := if d > 8 then 8 else d;
    if i < n then n - i else 0
  }

  function Printed(d: nat, i: nat): nat {
    if i < d then d - i else 0
  }

  // 10, 100, ... 1000000000: the server keeps them in a table.
  function TenTo(k: nat): nat {
    Pow(10, k)
  }

  lemma {:induction false} NumberAt(b: nat, d: nat, v: nat, k: nat)
    requires Base(b) && k < d
    ensures Number(b, d, v)[k] == DigitChar(Top(b, d - k, v))
    decreases d
  {
    if k > 0 {
      NumberAt(b, d - 1, v, k - 1);
    }
  }

  lemma WordIsEight()
    ensures Pow(16, 8) == WORD && Pow(16, 7) == 0x1000_0000
  {
    assert Pow(16, 2) == 256 && Pow(16, 4) == 65536;
    PowSum(16, 4, 4);
    PowSum(16, 3, 4);
  }

  lemma TopOfWord(v: nat)
    requires v < WORD
    ensures v == Low(16, 8, v) * Pow(16, 0)
  {
    WordIsEight();
    DivModUnique(v, WORD, 0, v);
  }

  // The highest digit of the word is the one to print, and shifting it out brings up the next.
  lemma ShiftWord(v: nat, i: nat)
    requires 1 <= i <= 8
    ensures var val := Low(16, i, v) * Pow(16, 8 - i);
      && val / 0x1000_0000 == Top(16, i, v)
      && val * 16 % WORD == Low(16, i - 1, v) * Pow(16, 9 - i)
  {
    WordIsEight();
    LowSplits(16, i, v);
    PowSum(16, i - 1, 8 - i);
    PowPositive(16, 8 - i);
    ShiftOut(Top(16, i, v), Low(16, i - 1, v), Pow(16, i - 1), Pow(16, 8 - i));
  }

  lemma ShiftOut(top: nat, low: nat, p: nat, q: nat)
    requires low < p && q > 0 && p * q == 0x1000_0000
    ensures (top * p + low) * q / 0x1000_0000 == top
    ensures (top * p + low) * q * 16 % WORD == low * (16 * q)
  {
    MulAssoc(top, p, q);
    MulBelow(low, p, q);
    DivModUnique((top * p + low) * q, 0x1000_0000, top, low * q);
    DivModUnique((top * p + low) * q * 16, WORD, top, low * q * 16);
    MulAssoc(low, q, 16);
  }

  lemma MulBelow(low: nat, p: nat, q: nat)
    requires low < p && q > 0
    ensures low * q < p * q
  {
    MulGap(q, low, p);
  }

  lemma BelowTen(v: nat)
    requires v < WORD
    ensures v == Low(10, 10, v)
  {
    assert Pow(10, 2) == 100 && Pow(10, 4) == 10000;
    PowSum(10, 4, 4);
    PowSum(10, 2, 8);
    DivModUnique(v, Pow(10, 10), 0, v);
  }

  lemma DropTop(v: nat, k: nat)
    requires 1 <= k <= 9
    ensures TenTo(k) > 0
    ensures Low(10, k + 1, v) / TenTo(k) == Top(10, k + 1, v) && Low(10, k + 1, v) % TenTo(k) == Low(10, k, v)
  {
    PowPositive(10, k);
    LowSplits(10, k + 1, v);
    DivModUnique(Low(10, k + 1, v), Pow(10, k), Top(10, k + 1, v), Low(10, k, v));
  }

  lemma LastDigit(v: nat)
    ensures Low(10, 1, v) == Top(10, 1, v)
  {
    LowSplits(10, 1, v);
    assert Pow(10, 0) == 1;
  }

  // ---------------------------------------------------------------- commands

  class CmdBuffer {
    const rcvCmd: array<char>
    var si: nat
    var fi: nat

    ghost predicate Valid()
      reads this, rcvCmd
    {
      fi <= si <= rcvCmd.Length && forall k :: 0 <= k < si ==> rcvCmd[k] != 0 as char
    }

    // What is left to fetch.
    ghost function Rest(): string
      requires Valid()
      reads this, rcvCmd
    {
      rcvCmd[fi..si]
    }

    constructor (cmd: string)
      requires forall k :: 0 <= k < |cmd| ==> cmd[k] != 0 as char
      ensures Valid() && fresh(rcvCmd) && Rest() == cmd
    {
      var a := new char[|cmd|](i requires 0 <= i < |cmd| => cmd[i]);
      rcvCmd, si, fi := a, |cmd|, 0;
    }

    // 0 stands for the end of the command.
    method FetchCmdCh() returns (c: char)
      requires Valid()
      modifies this`fi
      ensures Valid()
      ensures c == 0 as char <==> old(Rest()) == ""
      ensures if c == 0 as char then Rest() == "" else old(Rest()) == [c] + Rest()
    {
      if fi < si {
        c := rcvCmd[fi];
        fi := fi + 1;
      } else {
        c := 0 as char;
      }
    }

    method FetchDigit(b: nat) returns (ok: bool, digit: nat)
      requires Valid() && Base(b)
      modifies this`fi
      ensures Valid()
      ensures ok <==> old(Rest()) != "" && DigitValue(b, old(Rest())[0]).Some?
      ensures ok ==> DigitValue(b, old(Rest())[0]) == Some(digit) && Rest() == old(Rest())[1..]
    {
      var c := FetchCmdCh();
      if c == 0 as char { return false, 0; }
      if '0' <= c <= '9' {
        return true, c as int - '0' as int;
      } else if b == 16 && 'A' <= c <= 'F' {
        return true, c as int + 10 - 'A' as int;
      }
      return false, 0;
    }

    method FetchN(b: nat, digits: nat) returns (ok: bool, val: nat)
      requires Valid() && Base(b)
      modifies this`fi
      ensures Valid()
      ensures ok <==> Fetch(b, old(Rest()), digits, 0).Fetched?
      ensures ok ==> Fetch(b, old(Rest()), digits, 0) == Fetched(val, Rest())
    {
      var left: nat, res: nat := digits, 0;
      while left > 0
        invariant left <= digits && Valid()
        invariant Fetch(b, Rest(), left, res) == Fetch(b, old(Rest()), digits, 0)
      {
        var digit;
        ok, digit := FetchDigit(b);
        if !ok { return false, 0; }
        res := (res * b + digit) % WORD;
        left := left - 1;
      }
      return true, res;
    }
  }
}
