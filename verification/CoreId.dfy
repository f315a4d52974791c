/** core_id (src/core_id.h:12-20): kTerminated, or one incarnation of a core. The tag is a number never
    given twice (src/lab.h:140); the machine word keeps its last 16 bits (TaggedValue). */
module CoreIds {

  datatype CoreId = Terminated | Id(core: nat, tag: nat)
}
