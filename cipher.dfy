/** The XOR stream cipher of `cypherTest` (cipher.py:122-148): every character
    code of the message is XORed with one keystream byte from the generator,
    and decryption reseeds with the same key and runs the same pass again.

    Python strings are sequences of code points, so a message is a
    `seq<CodePoint>`; the demo message of cipher.py:127 is a parameter here. */
module Cipher {
  import opened Numerics
  import opened Generator

  /** Position `i` of the result is `msg[i] ^ ks[i]`. */
  function XorWith(msg: seq<CodePoint>, ks: seq<Byte>): (out: seq<CodePoint>)
    requires |ks| == |msg|
    ensures |out| == |msg|
  {
    if msg == [] then []
    else XorWith(msg[..|msg| - 1], ks[..|ks| - 1]) + [XorCodePoint(msg[|msg| - 1], ks[|ks| - 1])]
  }

  lemma {:induction false} XorWithAt(msg: seq<CodePoint>, ks: seq<Byte>, i: nat)
    requires |ks| == |msg| && i < |msg|
    ensures XorWith(msg, ks)[i] == Xor(msg[i], ks[i])
  {
    if i < |msg| - 1 {
      XorWithAt(msg[..|msg| - 1], ks[..|ks| - 1], i);
    }
  }

  /** Extending the message and the keystream by one extends the result by one. */
  lemma XorWithSnoc(msg: seq<CodePoint>, ks: seq<Byte>, c: CodePoint, b: Byte)
    requires |ks| == |msg|
    ensures XorWith(msg + [c], ks + [b]) == XorWith(msg, ks) + [XorCodePoint(c, b)]
  {
    assert (msg + [c])[..|msg|] == msg;
    assert (ks + [b])[..|ks|] == ks;
  }

  /** One more character of the message takes one more keystream byte. */
  lemma XorWithStep(msg: seq<CodePoint>, st: PrngState, pos: nat)
    requires ValidState(st) && pos < |msg|
    ensures XorWith(msg[..pos + 1], Keystream(st, pos + 1)) ==
            XorWith(msg[..pos], Keystream(st, pos)) + [XorCodePoint(msg[pos], KeyByte(AdvanceN(st, pos)))]
  {
    assert msg[..pos + 1] == msg[..pos] + [msg[pos]];
    XorWithSnoc(msg[..pos], Keystream(st, pos), msg[pos], KeyByte(AdvanceN(st, pos)));
  }

  /** XORing twice with the same keystream gives the message back. */
  lemma {:induction false} XorWithInvolution(msg: seq<CodePoint>, ks: seq<Byte>)
    requires |ks| == |msg|
    ensures XorWith(XorWith(msg, ks), ks) == msg
  {
    var out := XorWith(XorWith(msg, ks), ks);
    forall i | 0 <= i < |msg|
      ensures out[i] == msg[i]
    {
      XorWithAt(XorWith(msg, ks), ks, i);
      XorWithAt(msg, ks, i);
      XorSelfInverse(msg[i], ks[i]);
    }
  }

  /** What `xorString` returns after the generator was seeded with `key`. */
  function Encrypt(st: PrngState, key: int, msg: seq<CodePoint>): (out: seq<CodePoint>)
    requires ValidState(st)
  {
    XorWith(msg, Keystream(WithSeed(st, key), |msg|))
  }

  /** The ciphertext has the message's length, and character `i` is `msg[i]`
      XORed with the byte of the `i`-th draw after seeding with `key`. */
  lemma EncryptAt(st: PrngState, key: int, msg: seq<CodePoint>, i: nat)
    requires ValidState(st) && i < |msg|
    ensures |Encrypt(st, key, msg)| == |msg|
    ensures Encrypt(st, key, msg)[i] == Xor(msg[i], KeyByte(AdvanceN(WithSeed(st, key), i)))
  {
    var ks := Keystream(WithSeed(st, key), |msg|);
    XorWithAt(msg, ks, i);
    KeystreamAt(WithSeed(st, key), |msg|, i);
  }

  /** Decrypting with the key used for encrypting gives the message back, from
      whatever state the generator is in when it is reseeded. */
  lemma CipherRoundTrip(st: PrngState, st': PrngState, key: int, msg: seq<CodePoint>)
    requires ValidState(st) && ValidState(st') && SameParameters(st', st)
    ensures Encrypt(st', key, Encrypt(st, key, msg)) == msg
  {
    assert WithSeed(st', key) == WithSeed(st, key);
    XorWithInvolution(msg, Keystream(WithSeed(st, key), |msg|));
  }

  /** The nested `xorString` of cipher.py:128-135: one `toNormalizedByte` per
      character, in order. */
  method XorString(prng: Prng, msg: seq<CodePoint>) returns (resultantString: seq<CodePoint>)
    requires prng.Valid()
    modifies prng.Obj()
    ensures prng.Valid() && ValidState(old(prng.State()))
    ensures resultantString == XorWith(msg, Keystream(old(prng.State()), |msg|))
    ensures prng.State() == AdvanceN(old(prng.State()), |msg|)
  {
    ghost var st := prng.State();
    prng.ValidHasValidState();
    resultantString := [];
    var pos := 0;
    while pos < |msg|
      invariant 0 <= pos <= |msg|
      invariant prng.Valid()
      invariant prng.State() == AdvanceN(st, pos)
      invariant resultantString == XorWith(msg[..pos], Keystream(st, pos))
    {
      var b := prng.ToNormalizedByte();
      var encryptedChar := XorCodePoint(msg[pos], b);
      XorWithStep(msg, st, pos);
      resultantString := resultantString + [encryptedChar];
      pos := pos + 1;
    }
    assert msg[..pos] == msg;
  }

  /** cipher.py:122-148 without the printing: encrypt with `key`, decrypt with
      `key`, then decrypt with `key + 1`. */
  method CypherTest(prng: Prng, key: int, message: seq<CodePoint>)
    returns (cipherText: seq<CodePoint>, decypheredText: seq<CodePoint>, wrongKeyText: seq<CodePoint>)
    requires prng.Valid()
    modifies prng.Obj()
    ensures prng.Valid() && ValidState(old(prng.State()))
    ensures cipherText == Encrypt(old(prng.State()), key, message)
    ensures decypheredText == message
    ensures wrongKeyText == Encrypt(old(prng.State()), key + 1, cipherText)
    ensures prng.State() == AdvanceN(WithSeed(old(prng.State()), key + 1), |message|)
  {
    ghost var st := prng.State();
    prng.ValidHasValidState();
    prng.SetSeed(key);
    cipherText := XorString(prng, message);
    prng.SetSeed(key);
    decypheredText := XorString(prng, cipherText);
    CipherRoundTrip(st, AdvanceN(WithSeed(st, key), |message|), key, message);
    prng.SetSeed(key + 1);
    wrongKeyText := XorString(prng, cipherText);
  }
}
