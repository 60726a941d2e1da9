/** The scaffolding factory: the source text of a new client class is the stub text with its
    three placeholders replaced, in order, by the target namespace, the class name and the
    base class name. The stub text is a parameter here: reading the stub file is not part of
    this model. */
module Factory {
  import opened PhpArrays
  import opened PhpStrings

  const NamespacePlaceholder := "{{NAMESPACE}}"
  const ClassNamePlaceholder := "{{CLASSNAME}}"
  const ExtendsPlaceholder := "{{EXTENDS}}"

  /** A backslash-separated PHP namespace, one backslash in the text. */
  const ModelsNamespace := "App\\ApiModels"
  const BaseClass := "RestModel"

  class RestModelFactory {
    var className: string

    /** PHP leaves the typed `className` property uninitialised here; it is always set by
        `generate` before it is read. */
    constructor ()
      ensures className == ""
    {
      className := "";
    }

    /** `construct` (an ordinary method, not PHP's constructor): sets the class name. */
    method Construct(className: string)
      modifies this
      ensures this.className == className
    {
      this.className := className;
    }

    /** `generate`: sets the class name first, then substitutes the stub. */
    method Generate(className: string, stubContent: string) returns (source: string)
      modifies this
      ensures this.className == className
      ensures source == StrReplaceAll([NamespacePlaceholder, ClassNamePlaceholder, ExtendsPlaceholder],
                                      [ModelsNamespace, className, BaseClass], stubContent)
    {
      this.className := className;
      source := ReplaceVarsInStub(stubContent, GetStubVariables());
    }

    /** `getStubVariables`: the three placeholders, in this order, with the namespace, the
        current class name and the base class name. */
    function GetStubVariables(): (variables: PhpArray<string>)
      reads this
      ensures Keys(variables) == [NamespacePlaceholder, ClassNamePlaceholder, ExtendsPlaceholder]
      ensures Values(variables) == [ModelsNamespace, className, BaseClass]
    {
      var variables := [Entry(NamespacePlaceholder, ModelsNamespace), Entry(ClassNamePlaceholder, className),
                        Entry(ExtendsPlaceholder, BaseClass)];
      assert Keyed(variables) by {
        assert NamespacePlaceholder[2] != ClassNamePlaceholder[2] && ClassNamePlaceholder[2] != ExtendsPlaceholder[2]
          && ExtendsPlaceholder[2] != NamespacePlaceholder[2];
      }
      variables
    }

    /** `replaceVarsInStub`: the array form of `str_replace` over the stub text, the keys of
        `variables` replaced in order by their values; stub text in which no non-empty key
        occurs comes back unchanged. */
    static function ReplaceVarsInStub(stubContent: string, variables: PhpArray<string>): (source: string)
      ensures (forall i :: 0 <= i < |variables| && variables[i].key != "" ==> !Occurs(variables[i].key, stubContent))
              ==> source == stubContent
    {
      var keys := Keys(variables);
      assert (forall i :: 0 <= i < |variables| && variables[i].key != "" ==> !Occurs(variables[i].key, stubContent))
             ==> StrReplaceAll(keys, Values(variables), stubContent) == stubContent by {
        if forall i :: 0 <= i < |variables| && variables[i].key != "" ==> !Occurs(variables[i].key, stubContent) {
          StrReplaceAllAbsent(keys, Values(variables), stubContent);
        }
      }
      StrReplaceAll(keys, Values(variables), stubContent)
    }
  }

  /** Stub text holding none of the placeholders comes back unchanged. */
  lemma StubWithoutPlaceholders(className: string, stubContent: string)
    requires !Occurs(NamespacePlaceholder, stubContent)
    requires !Occurs(ClassNamePlaceholder, stubContent)
    requires !Occurs(ExtendsPlaceholder, stubContent)
    ensures StrReplaceAll([NamespacePlaceholder, ClassNamePlaceholder, ExtendsPlaceholder],
                          [ModelsNamespace, className, BaseClass], stubContent) == stubContent
  {
    StrReplaceAllAbsent([NamespacePlaceholder, ClassNamePlaceholder, ExtendsPlaceholder],
                        [ModelsNamespace, className, BaseClass], stubContent);
  }
}
