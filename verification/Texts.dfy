/** The texts the controller writes and looks for, spelled out. Neither the controller nor the steps use this
    module: what is said in its terms is said independently of theirs. */
module Texts {
  import opened Model

  function LabelText(id: AwId): string {
    id.name + "-" + id.namespace
  }

  function ClaimText(id: AwId): string {
    "instascale.codeflare.dev-" + id.name + "-" + id.namespace
  }

  function CopyText(id: AwId, t: string): string {
    id.name + "-" + id.namespace + "-" + t
  }

  predicate Has(labels: Labels, key: string, value: string) {
    key in labels && labels[key] == value
  }

  predicate HasLabelText(labels: Labels, id: AwId) {
    Has(labels, LabelText(id), LabelText(id))
  }

  predicate HasType(labels: Labels, t: string) {
    Has(labels, "machine.openshift.io/instance-type", t)
  }

  predicate HasOwner(labels: Labels, n: string) {
    Has(labels, "machine.openshift.io/cluster-api-machineset", n)
  }

  predicate HasFinalizer(aw: AppWrapper) {
    "instascale.codeflare.dev/finalizer" in aw.finalizers
  }

  /** `sub` occurs in s. */
  ghost predicate Within(s: string, sub: string) {
    exists a: string, b: string :: s == a + sub + b
  }

  /** In care, and deleted or completed. */
  predicate Ended(aw: AppWrapper) {
    HasFinalizer(aw) && (aw.deleting || aw.state == "Completed")
  }

  /** In care, and pending for lack of resources. */
  ghost predicate Waiting(aw: AppWrapper) {
    && HasFinalizer(aw) && !aw.deleting && aw.state == "Pending"
    && exists i | 0 <= i < |aw.conditions| :: Within(aw.conditions[i], "Insufficient")
  }

  lemma TextsAreWritten(id: AwId)
    ensures AwLabel(id) == LabelText(id) && ClaimKey(id) == ClaimText(id)
  {
    assert "instascale.codeflare.dev-" + (id.name + "-" + id.namespace) == ClaimText(id);
  }
}
