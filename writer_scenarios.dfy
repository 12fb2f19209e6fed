/**
 * The attribute-override scenario: a handler on every attribute of an
 * element writes an attribute "att" with the value of the attribute it was
 * called for, and each original attribute is then written as well.  The
 * buffer keeps "att" where it was first written, with the value of the last
 * write, ahead of the original attributes in their order.
 */
module WriterScenarios {
  import opened QNames
  import opened WriterCalls
  import opened SimpleWriters

  /** Adding a name the buffer does not hold appends it. */
  lemma PutNew(buf: seq<(QName, string)>, name: QName, value: string)
    requires forall i :: 0 <= i < |buf| ==> buf[i].0.Key() != name.Key()
    ensures BufferPut(buf, name, value) == buf + [(name, value)]
  {
    assert BufferIndex(buf, name.Key()) == |buf|;
  }

  /** Writing the name held first replaces its value in place. */
  lemma PutFirst(buf: seq<(QName, string)>, name: QName, value: string)
    requires |buf| > 0 && buf[0].0.Key() == name.Key()
    ensures BufferPut(buf, name, value) == buf[0 := (buf[0].0, value)]
  {
  }

  /**
   * <test att1='1' att2='2' att3='3'> with a handler writing att=value for
   * each attribute: four buffered attributes, "att" first with the last value.
   */
  lemma OverrideAttributeWriting(att: QName, a1: QName, a2: QName, a3: QName, v1: string, v2: string, v3: string)
    requires att.Key() != a1.Key() && att.Key() != a2.Key() && att.Key() != a3.Key()
    requires a1.Key() != a2.Key() && a1.Key() != a3.Key() && a2.Key() != a3.Key()
    ensures var b := BufferPut(BufferPut(BufferPut(BufferPut(BufferPut(BufferPut([],
                       att, v1), a1, v1), att, v2), a2, v2), att, v3), a3, v3);
            b == [(att, v3), (a1, v1), (a2, v2), (a3, v3)]
            && AttributeCalls(b) == [WriteAttribute(att, v3), WriteAttribute(a1, v1), WriteAttribute(a2, v2), WriteAttribute(a3, v3)]
  {
    PutNew([], att, v1);
    var b1 := [(att, v1)];
    PutNew(b1, a1, v1);
    var b2 := [(att, v1), (a1, v1)];
    PutFirst(b2, att, v2);
    var b3 := [(att, v2), (a1, v1)];
    PutNew(b3, a2, v2);
    var b4 := [(att, v2), (a1, v1), (a2, v2)];
    PutFirst(b4, att, v3);
    var b5 := [(att, v3), (a1, v1), (a2, v2)];
    PutNew(b5, a3, v3);
  }
}
