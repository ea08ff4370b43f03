/** The memory tool: an in-memory key/value store. */
module MemoryTool {
  import opened Common
  import Strconv

  /** `Memory`, over values of any type `V`. */
  class Memory<V> {
    var data: map<string, V>

    /** `NewMemory`. */
    constructor ()
      ensures data == map[]
    {
      data := map[];
    }

    /** `Set`: store `value` under `key`; every other key keeps its value. */
    method Set(key: string, value: V)
      modifies this
      ensures data == old(data)[key := value]
    {
      data := data[key := value];
    }

    /** `Get`: the value under `key`, and whether there is one. */
    method Get(key: string) returns (r: Option<V>)
      ensures r.Some? <==> key in data
      ensures r.Some? ==> r.value == data[key]
    {
      r := Lookup(data, key);
    }

    /** `Delete`: remove `key`; an absent key is no change. */
    method Delete(key: string)
      modifies this
      ensures data == old(data) - {key}
    {
      data := data - {key};
    }

    /** `List`: a fresh copy of the contents. */
    method List() returns (copy: map<string, V>)
      ensures copy == data
    {
      copy := CopyMap(data);
    }

    /** `Info`: "Memory: N items", N the number of keys in decimal. */
    method Info() returns (text: string)
      ensures |text| > 14 && text[..8] == "Memory: " && text[|text| - 6..] == " items"
      ensures Strconv.AllDigits(text[8..|text| - 6])
      ensures Strconv.DecimalValue(text[8..|text| - 6]) == |data|
      ensures text[8] == '0' ==> |text| == 15
    {
      var count := Strconv.Digits(|data|);
      text := "Memory: " + count + " items";
      assert text[8..|text| - 6] == count;
    }
  }

  /** A stored value can be read back at once. */
  method SetThenGet<V>(memory: Memory<V>, key: string, value: V) returns (r: Option<V>)
    modifies memory
    ensures r == Some(value)
  {
    memory.Set(key, value);
    r := memory.Get(key);
  }

  /** A deleted key reads as missing, whether or not it was there. */
  method DeleteThenGet<V>(memory: Memory<V>, key: string) returns (r: Option<V>)
    modifies memory
    ensures r == None
  {
    memory.Delete(key);
    r := memory.Get(key);
  }
}
