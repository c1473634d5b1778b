/** The payload of a Sphinx packet: padding, layers of encryption, and how both are undone. */
module SphinxPayload {
  import opened Wrappers
  import opened Bytes
  import opened WideBlock
  import opened SphinxPrimitives
  import opened SphinxHeader

  const PAYLOAD_OVERHEAD_SIZE: nat := SECURITY_PARAMETER + 1
  const DIGEST_RESULT_SIZE: nat := 32

  // ---------- Padding ----------

  /** `validate_parameters`: is there room for the message? */
  predicate ValidParameters(payloadSize: nat, plaintextLength: nat) {
    && PAYLOAD_OVERHEAD_SIZE <= payloadSize && DIGEST_RESULT_SIZE <= payloadSize
    && plaintextLength <= payloadSize - PAYLOAD_OVERHEAD_SIZE
  }

  /** Zeros, the message, a one, and zeros up to the payload size. */
  function Padded(plaintext: Bytes, payloadSize: nat): (r: Bytes)
    requires |plaintext| + PAYLOAD_OVERHEAD_SIZE <= payloadSize
    ensures |r| == payloadSize
  {
    Zeros(SECURITY_PARAMETER) + plaintext + [1] + Zeros(payloadSize - PAYLOAD_OVERHEAD_SIZE - |plaintext|)
  }

  /** `rposition`: where the last one is. */
  function LastOne(b: Bytes): (r: Option<nat>)
    ensures r.Some? ==> r.value < |b| && b[r.value] == 1 && forall i :: r.value < i < |b| ==> b[i] != 1
    ensures r.None? ==> forall i :: 0 <= i < |b| ==> b[i] != 1
  {
    if b == [] then None
    else if b[|b| - 1] == 1 then Some(|b| - 1)
    else LastOne(b[..|b| - 1])
  }

  function RecoverPlaintext(payload: Bytes): Outcome<Bytes> {
    var leading := Min(SECURITY_PARAMETER, |payload|);
    if payload[..leading] != Zeros(leading) then Failed(InvalidPayload)
    else
      var padded := payload[leading..];
      match LastOne(padded)
      case Some(i) => Done(padded[..i])
      case None => Failed(InvalidPayload)
  }

  /** The padding can be told from the message, even when the message contains or ends in zeros and ones. */
  lemma PaddingUndone(plaintext: Bytes, payloadSize: nat)
    requires |plaintext| + PAYLOAD_OVERHEAD_SIZE <= payloadSize
    ensures RecoverPlaintext(Padded(plaintext, payloadSize)) == Done(plaintext)
  {
    var payload, n := Padded(plaintext, payloadSize), |plaintext|;
    assert payload[..SECURITY_PARAMETER] == Zeros(SECURITY_PARAMETER);
    var padded := payload[SECURITY_PARAMETER..];
    assert padded == plaintext + ([1] + Zeros(payloadSize - PAYLOAD_OVERHEAD_SIZE - n));
    assert padded[n] == 1 && forall i :: n < i < |padded| ==> padded[i] == 0;
    assert padded[..n] == plaintext;
  }

  /** Conversely, a payload from which a message is recovered is that message, padded, except for what follows
      the last one: there anything but a one is accepted. */
  lemma RecoveredIsPadded(payload: Bytes, plaintext: Bytes)
    requires RecoverPlaintext(payload) == Done(plaintext)
    ensures |plaintext| + PAYLOAD_OVERHEAD_SIZE <= |payload|
    ensures payload[..|plaintext| + PAYLOAD_OVERHEAD_SIZE] == Zeros(SECURITY_PARAMETER) + plaintext + [1]
    ensures 1 !in payload[|plaintext| + PAYLOAD_OVERHEAD_SIZE..]
  {
  }

  // ---------- Layers ----------

  function Layered(suite: Suite, keys: seq<PayloadKey>, payload: Bytes): Bytes {
    if keys == [] then payload else suite.cipher.encrypt(keys[0], Layered(suite, keys[1..], payload))
  }

  function AddLayer(suite: Suite, key: PayloadKey, payload: Bytes): Outcome<Bytes> {
    if |payload| < suite.cipher.minBlock then Failed(InvalidPayload) else Done(suite.cipher.encrypt(key, payload))
  }

  /** `unwrap`: one layer comes off. */
  function RemoveLayer(suite: Suite, key: PayloadKey, payload: Bytes): Outcome<Bytes> {
    if |payload| < suite.cipher.minBlock then Failed(InvalidPayload) else Done(suite.cipher.decrypt(key, payload))
  }

  function RemoveLayers(suite: Suite, keys: seq<PayloadKey>, payload: Bytes): Outcome<Bytes> {
    if keys == [] then Done(payload)
    else
      var rest := RemoveLayer(suite, keys[0], payload);
      if rest.Failed? then rest else RemoveLayers(suite, keys[1..], rest.value)
  }

  lemma {:induction false} LayeredLength(suite: Suite, keys: seq<PayloadKey>, payload: Bytes)
    requires Permutes(suite.cipher) && suite.cipher.minBlock <= |payload|
    ensures |Layered(suite, keys, payload)| == |payload|
  {
    if keys != [] {
      LayeredLength(suite, keys[1..], payload);
    }
  }

  lemma {:induction false} LayersUndone(suite: Suite, keys: seq<PayloadKey>, payload: Bytes)
    requires Permutes(suite.cipher) && suite.cipher.minBlock <= |payload|
    ensures RemoveLayers(suite, keys, Layered(suite, keys, payload)) == Done(payload)
  {
    if keys != [] {
      LayeredLength(suite, keys[1..], payload);
      LayersUndone(suite, keys[1..], payload);
    }
  }

  /** What `encapsulate_message` returns. The checks do not ask what the cipher asks: with a message that fits
      a payload which is too short for the cipher, the first layer fails. */
  function Encapsulate(suite: Suite, plaintext: Bytes, keys: seq<PayloadKey>, payloadSize: nat): Outcome<Bytes> {
    if !ValidParameters(payloadSize, |plaintext|) then Failed(InvalidPayload)
    else if keys != [] && payloadSize < suite.cipher.minBlock then Failed(InvalidPayload)
    else Done(Layered(suite, keys, Padded(plaintext, payloadSize)))
  }

  method EncapsulateMessage(suite: Suite, plaintext: Bytes, keys: seq<PayloadKey>, payloadSize: nat)
    returns (result: Outcome<Bytes>)
    requires Permutes(suite.cipher)
    ensures result == Encapsulate(suite, plaintext, keys, payloadSize)
  {
    if payloadSize < PAYLOAD_OVERHEAD_SIZE {
      return Failed(InvalidPayload);
    } else if payloadSize < DIGEST_RESULT_SIZE {
      return Failed(InvalidPayload);
    }
    if |plaintext| > payloadSize - PAYLOAD_OVERHEAD_SIZE {
      return Failed(InvalidPayload);
    }
    var payload := Padded(plaintext, payloadSize);
    for i := |keys| downto 0
      invariant |payload| == payloadSize && payload == Layered(suite, keys[i..], Padded(plaintext, payloadSize))
      invariant i < |keys| ==> suite.cipher.minBlock <= payloadSize
    {
      var layer := AddLayer(suite, keys[i], payload);
      if layer.Failed? {
        return Failed(layer.error);
      }
      payload := layer.value;
      assert keys[i..][1..] == keys[i + 1..];
    }
    assert keys[0..] == keys;
    return Done(payload);
  }

  /** Whatever is encapsulated successfully is recovered by taking off all layers in order. */
  lemma EncapsulationUndone(suite: Suite, plaintext: Bytes, keys: seq<PayloadKey>, payloadSize: nat)
    requires Permutes(suite.cipher) && Encapsulate(suite, plaintext, keys, payloadSize).Done?
    ensures var unwrapped := RemoveLayers(suite, keys, Encapsulate(suite, plaintext, keys, payloadSize).value);
            unwrapped.Done? && RecoverPlaintext(unwrapped.value) == Done(plaintext)
  {
    hide RecoverPlaintext, Permutes, Padded;
    PaddingUndone(plaintext, payloadSize);
    if keys != [] {
      LayersUndone(suite, keys, Padded(plaintext, payloadSize));
    }
  }
}
